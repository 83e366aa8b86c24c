/** Choosing target nodes: which ready nodes receive the images. */
module Selection {
  import opened Basics
  import opened Cluster

  datatype SelectError = SelectorUnparsable | NotEnoughNodes | NoMoreNodes | NoTarget | ApiFault

  // ---- what a selection is -----------------------------------------------------------------

  /** Number of entries of `nodes` that lie in zone `z`. */
  function ZoneCount(nodes: seq<Node>, z: string): nat {
    if nodes == [] then 0
    else ZoneCount(nodes[..|nodes| - 1], z) + if Zone(nodes[|nodes| - 1]) == z then 1 else 0
  }

  predicate IsCandidate(ready: seq<Node>, chosen: seq<Node>, n: Node) {
    n in ready && n.name !in NodeNames(chosen)
  }

  /** A candidate in a least populated zone. Ties are open: the sort behind the pick is unstable. */
  ghost predicate BestPick(ready: seq<Node>, chosen: seq<Node>, n: Node) {
    && IsCandidate(ready, chosen, n)
    && forall c :: IsCandidate(ready, chosen, c) ==> ZoneCount(chosen, Zone(n)) <= ZoneCount(chosen, Zone(c))
  }

  /** The nodes of the previous selection that are still ready, in the previous order. */
  function StillReady(prev: seq<string>, ready: seq<Node>): seq<Node> {
    if prev == [] then []
    else
      var before := StillReady(prev[..|prev| - 1], ready);
      var name := prev[|prev| - 1];
      if name in NodeNames(ready) then before + [ready[IndexOf(NodeNames(ready), name)]] else before
  }

  function Kept(prev: seq<string>, ready: seq<Node>, replicas: int): seq<Node> {
    var still := StillReady(prev, ready);
    still[..Max(0, Min(replicas, |still|))]
  }

  /** `sel` extends `kept`, each further node being a best pick for the nodes before it. */
  ghost predicate GreedyFrom(ready: seq<Node>, kept: seq<Node>, sel: seq<Node>) {
    && kept <= sel
    && forall k: nat :: |kept| <= k < |sel| ==> PickedAt(ready, sel, k)
  }

  ghost predicate PickedAt(ready: seq<Node>, sel: seq<Node>, k: nat)
    requires k < |sel|
  {
    BestPick(ready, sel[..k], sel[k])
  }

  /** `sel` keeps what it can of the previous nodes, then only ever adds a best pick. */
  ghost predicate IsSelection(prev: seq<string>, replicas: int, ready: seq<Node>, sel: seq<Node>) {
    var kept := Kept(prev, ready, replicas);
    |sel| == Max(replicas, 0) && GreedyFrom(ready, kept, sel)
  }

  lemma {:induction false} StillReadyPrefix(prev: seq<string>, i: nat, ready: seq<Node>)
    requires i <= |prev|
    ensures StillReady(prev[..i], ready) <= StillReady(prev, ready)
  {
    if i < |prev| {
      StillReadyPrefix(prev[..|prev| - 1], i, ready);
      assert prev[..|prev| - 1][..i] == prev[..i];
    } else {
      assert prev[..i] == prev;
    }
  }

  /** While fewer nodes are chosen than are ready, some ready node is not chosen. */
  lemma CandidateExists(ready: seq<Node>, chosen: seq<Node>)
    requires UniqueNames(ready) && |chosen| < |ready|
    ensures exists n :: IsCandidate(ready, chosen, n)
  {
    DistinctCard(NodeNames(ready));
    ToSetCard(NodeNames(chosen));
    if !exists n :: IsCandidate(ready, chosen, n) {
      assert ToSet(NodeNames(ready)) <= ToSet(NodeNames(chosen)) by {
        forall x | x in NodeNames(ready) ensures x in NodeNames(chosen) {
          var i :| 0 <= i < |ready| && NodeNames(ready)[i] == x;
          assert !IsCandidate(ready, chosen, ready[i]);
        }
      }
      SubsetCard(ToSet(NodeNames(ready)), ToSet(NodeNames(chosen)));
      assert false;
    }
  }

  // ---- the loops ---------------------------------------------------------------------------

  function ReadyNodes(nodes: seq<Node>): seq<Node> {
    if nodes == [] then []
    else
      var before := ReadyNodes(nodes[..|nodes| - 1]);
      var last := nodes[|nodes| - 1];
      if IsNodeReady(last) then before + [last] else before
  }

  method FilterReadyNodes(nodes: seq<Node>) returns (ready: seq<Node>)
    ensures ready == ReadyNodes(nodes)
  {
    ready := [];
    for i := 0 to |nodes|
      invariant ready == ReadyNodes(nodes[..i])
    {
      assert nodes[..i + 1][..i] == nodes[..i];
      if IsNodeReady(nodes[i]) {
        ready := ready + [nodes[i]];
      }
    }
    assert nodes[..|nodes|] == nodes;
  }

  method GetZoneCount(selected: seq<Node>) returns (count: map<string, nat>)
    ensures forall z :: (if z in count then count[z] else 0) == ZoneCount(selected, z)
  {
    count := map[];
    for i := 0 to |selected|
      invariant forall z :: (if z in count then count[z] else 0) == ZoneCount(selected[..i], z)
    {
      assert selected[..i + 1][..i] == selected[..i];
      var zone := Zone(selected[i]);
      count := count[zone := (if zone in count then count[zone] else 0) + 1];
    }
    assert selected[..|selected|] == selected;
  }

  method FilterSelectNodes(ready: seq<Node>, selected: seq<Node>) returns (candidates: seq<Node>)
    ensures forall n :: n in candidates <==> IsCandidate(ready, selected, n)
  {
    var taken: set<string> := {};
    for i := 0 to |selected|
      invariant taken == ToSet(NodeNames(selected[..i]))
    {
      assert NodeNames(selected[..i + 1]) == NodeNames(selected[..i]) + [selected[i].name];
      taken := taken + {selected[i].name};
    }
    assert selected[..|selected|] == selected;
    candidates := [];
    for i := 0 to |ready|
      invariant forall n :: n in candidates <==> n in ready[..i] && n.name !in taken
    {
      if ready[i].name !in taken {
        candidates := candidates + [ready[i]];
      }
    }
    assert ready[..|ready|] == ready;
  }

  function Score(n: Node, zoneCount: map<string, nat>): nat {
    if Zone(n) in zoneCount then zoneCount[Zone(n)] else 0
  }

  lemma {:induction false} LeastScoreExists(candidates: seq<Node>, zoneCount: map<string, nat>)
    requires candidates != []
    ensures exists n :: n in candidates && forall c :: c in candidates ==> Score(n, zoneCount) <= Score(c, zoneCount)
  {
    var last := candidates[|candidates| - 1];
    var front := candidates[..|candidates| - 1];
    if front != [] {
      LeastScoreExists(front, zoneCount);
      var n :| n in front && forall c :: c in front ==> Score(n, zoneCount) <= Score(c, zoneCount);
      var best := if Score(n, zoneCount) <= Score(last, zoneCount) then n else last;
      assert best in candidates;
      forall c | c in candidates ensures Score(best, zoneCount) <= Score(c, zoneCount) {
        assert c in front || c == last;
      }
    } else {
      assert candidates == [last];
    }
  }

  /** Sort the candidates by score and take the first: a least score, ties broken arbitrarily. */
  method PickFirst(ready: seq<Node>, selected: seq<Node>, candidates: seq<Node>) returns (best: Node)
    requires candidates != []
    requires forall n :: n in candidates <==> IsCandidate(ready, selected, n)
    ensures BestPick(ready, selected, best)
  {
    var zoneCount := GetZoneCount(selected);
    LeastScoreExists(candidates, zoneCount);
    best :| best in candidates && forall c :: c in candidates ==> Score(best, zoneCount) <= Score(c, zoneCount);
    forall c | IsCandidate(ready, selected, c)
      ensures ZoneCount(selected, Zone(best)) <= ZoneCount(selected, Zone(c))
    {
      assert Score(best, zoneCount) <= Score(c, zoneCount);
    }
  }

  lemma GreedyExtends(ready: seq<Node>, kept: seq<Node>, sel: seq<Node>, n: Node)
    requires GreedyFrom(ready, kept, sel) && BestPick(ready, sel, n)
    ensures GreedyFrom(ready, kept, sel + [n])
  {
    forall k: nat | |kept| <= k < |sel| + 1 ensures PickedAt(ready, sel + [n], k) {
      if k < |sel| {
        assert PickedAt(ready, sel, k) && (sel + [n])[..k] == sel[..k];
      } else {
        assert (sel + [n])[..k] == sel;
      }
    }
  }

  lemma KeptWhenFull(prev: seq<string>, i: nat, replicas: int, ready: seq<Node>)
    requires i <= |prev|
    requires |StillReady(prev[..i], ready)| == Max(0, replicas)
    ensures StillReady(prev[..i], ready) == Kept(prev, ready, replicas)
  {
    StillReadyPrefix(prev, i, ready);
  }

  method IndexByName(ready: seq<Node>) returns (byName: map<string, Node>)
    requires UniqueNames(ready)
    ensures forall name :: name in NodeNames(ready) ==>
              name in byName && byName[name] == ready[IndexOf(NodeNames(ready), name)]
  {
    byName := map[];
    for i := 0 to |ready|
      invariant forall j :: 0 <= j < i ==> ready[j].name in byName && byName[ready[j].name] == ready[j]
    {
      byName := byName[ready[i].name := ready[i]];
    }
  }

  /** Selection by replicas. It fails exactly when the cluster has too few ready nodes. */
  method SelectNodesByReplicas(prev: seq<string>, replicas: int, ready: seq<Node>)
    returns (res: Result<seq<string>, SelectError>)
    requires UniqueNames(ready)
    ensures res.Err? <==> |ready| < replicas
    ensures res.Err? ==> res.error == NotEnoughNodes
    ensures res.Ok? ==> exists sel :: IsSelection(prev, replicas, ready, sel) && res.value == NodeNames(sel)
  {
    if |ready| < replicas {
      return Err(NotEnoughNodes);
    }
    var readyNodesMap := IndexByName(ready);
    var selected: seq<Node> := [];
    for i := 0 to |prev|
      invariant selected == StillReady(prev[..i], ready)
      invariant |selected| <= Max(0, replicas)
    {
      if |selected| >= replicas {
        KeptWhenFull(prev, i, replicas, ready);
        assert IsSelection(prev, replicas, ready, selected);
        return Ok(NodeNames(selected));
      }
      assert prev[..i + 1][..i] == prev[..i];
      if prev[i] in NodeNames(ready) {
        selected := selected + [readyNodesMap[prev[i]]];
      }
    }
    assert prev[..|prev|] == prev;
    ghost var kept := selected;
    assert kept == Kept(prev, ready, replicas);

    for i := 0 to |ready|
      invariant GreedyFrom(ready, kept, selected)
      invariant |selected| <= Max(0, replicas)
      invariant |selected| == |kept| + i
    {
      if |selected| >= replicas {
        assert IsSelection(prev, replicas, ready, selected);
        return Ok(NodeNames(selected));
      }
      var candidates := FilterSelectNodes(ready, selected);
      CandidateExists(ready, selected);
      if |candidates| == 0 {
        return Err(NoMoreNodes);
      }
      var best := PickFirst(ready, selected, candidates);
      GreedyExtends(ready, kept, selected, best);
      selected := selected + [best];
    }
    assert IsSelection(prev, replicas, ready, selected);
    return Ok(NodeNames(selected));
  }

  // ---- the target nodes of an ImagePrefetch ------------------------------------------------

  /** A list request with a label selector returns the selected nodes, in list order. */
  function MatchingNodes(selector: LabelSelector, nodes: seq<Node>): seq<Node> {
    if nodes == [] then []
    else
      var before := MatchingNodes(selector, nodes[..|nodes| - 1]);
      var last := nodes[|nodes| - 1];
      if Selects(selector, last) then before + [last] else before
  }

  function ReadyTargets(selector: LabelSelector, nodes: seq<Node>): seq<Node> {
    ReadyNodes(MatchingNodes(selector, nodes))
  }

  /** A fresh choice is due when there is none, the spec moved on, or a chosen node dropped out. */
  predicate NeedsSelection(p: ImagePrefetch, ready: seq<Node>) {
    || p.status.selectedNodes == []
    || p.generation != p.status.observedGeneration
    || exists i :: 0 <= i < |p.status.selectedNodes| && p.status.selectedNodes[i] !in NodeNames(ready)
  }

  method IsNeedNodeSelection(p: ImagePrefetch, ready: seq<Node>) returns (need: bool)
    ensures need == NeedsSelection(p, ready)
  {
    if |p.status.selectedNodes| == 0 {
      return true;
    }
    if p.generation != p.status.observedGeneration {
      return true;
    }
    var readyNodesName := NodeNames(ready);
    var containUnhealthyNodes := false;
    for i := 0 to |p.status.selectedNodes|
      invariant !containUnhealthyNodes
      invariant forall j :: 0 <= j < i ==> p.status.selectedNodes[j] in readyNodesName
    {
      if p.status.selectedNodes[i] !in readyNodesName {
        containUnhealthyNodes := true;
        break;
      }
    }
    return containUnhealthyNodes;
  }

  /** The answers `selectTargetNodes` may give for an ImagePrefetch when the node list is `nodes`. */
  ghost predicate TargetOutcome(p: ImagePrefetch, nodes: seq<Node>, res: Result<seq<string>, SelectError>) {
    var ready := ReadyTargets(p.spec.selector, nodes);
    if p.spec.selector.BadSelector? then res == Err(SelectorUnparsable)
    else if p.spec.allNodes then res == Ok(NodeNames(ready))
    else if p.spec.replicas <= 0 then res == Err(NoTarget)
    else if !NeedsSelection(p, ready) then res == Ok(p.status.selectedNodes)
    else if |ready| < p.spec.replicas then res == Err(NotEnoughNodes)
    else res.Ok? && exists sel ::
          IsSelection(p.status.selectedNodes, p.spec.replicas, ready, sel) && res.value == NodeNames(sel)
  }

  /** Who may be a target: a node that matches the selector and whose first Ready condition is True. */
  ghost predicate Eligible(p: ImagePrefetch, n: Node) {
    && (p.spec.selector.EmptySelector? || (p.spec.selector.Selecting? && p.spec.selector.matches(n.labels)))
    && exists i :: IsDecisive(n.conditions, i) && n.conditions[i].status == "True"
  }

  /** Condition i is the first one of kind Ready. */
  predicate IsDecisive(conditions: seq<NodeCondition>, i: int) {
    && 0 <= i < |conditions| && conditions[i].kind == "Ready"
    && forall j :: 0 <= j < i ==> conditions[j].kind != "Ready"
  }

  lemma {:induction false} ReadyIsDecided(conditions: seq<NodeCondition>)
    ensures ReadyIn(conditions) <==> exists i :: IsDecisive(conditions, i) && conditions[i].status == "True"
  {
    if conditions != [] {
      var rest := conditions[1..];
      ReadyIsDecided(rest);
      if conditions[0].kind == "Ready" {
        assert IsDecisive(conditions, 0);
      } else {
        forall i | 0 <= i < |rest| ensures IsDecisive(rest, i) <==> IsDecisive(conditions, i + 1) {
          assert rest[i] == conditions[i + 1];
          if IsDecisive(rest, i) {
            forall j | 0 <= j < i + 1 ensures conditions[j].kind != "Ready" {
              if j > 0 { assert rest[j - 1] == conditions[j]; }
            }
          }
          if IsDecisive(conditions, i + 1) {
            forall j | 0 <= j < i ensures rest[j].kind != "Ready" { assert rest[j] == conditions[j + 1]; }
          }
        }
        if i :| IsDecisive(conditions, i) && conditions[i].status == "True" {
          assert IsDecisive(rest, i - 1) && rest[i - 1] == conditions[i];
        }
        if i :| IsDecisive(rest, i) && rest[i].status == "True" {
          assert IsDecisive(conditions, i + 1) && conditions[i + 1] == rest[i];
        }
      }
    }
  }

  lemma {:induction false} ReadyTargetsMembers(selector: LabelSelector, nodes: seq<Node>)
    ensures forall n :: n in ReadyTargets(selector, nodes) <==> n in nodes && Selects(selector, n) && IsNodeReady(n)
    ensures UniqueNames(nodes) ==> UniqueNames(ReadyTargets(selector, nodes))
  {
    MatchingMembers(selector, nodes);
    ReadyMembers(MatchingNodes(selector, nodes));
  }

  lemma {:induction false} MatchingMembers(selector: LabelSelector, nodes: seq<Node>)
    ensures forall n :: n in MatchingNodes(selector, nodes) <==> n in nodes && Selects(selector, n)
    ensures UniqueNames(nodes) ==> UniqueNames(MatchingNodes(selector, nodes))
  {
    if nodes != [] {
      var front, last := nodes[..|nodes| - 1], nodes[|nodes| - 1];
      assert nodes == front + [last];
      MatchingMembers(selector, front);
      var before := MatchingNodes(selector, front);
      forall k | UniqueNames(nodes) && 0 <= k < |before| ensures before[k].name != last.name {
        assert before[k] in front;
      }
    }
  }

  lemma {:induction false} ReadyMembers(nodes: seq<Node>)
    ensures forall n :: n in ReadyNodes(nodes) <==> n in nodes && IsNodeReady(n)
    ensures UniqueNames(nodes) ==> UniqueNames(ReadyNodes(nodes))
  {
    if nodes != [] {
      var front, last := nodes[..|nodes| - 1], nodes[|nodes| - 1];
      assert nodes == front + [last];
      ReadyMembers(front);
      var before := ReadyNodes(front);
      forall k | UniqueNames(nodes) && 0 <= k < |before| ensures before[k].name != last.name {
        assert before[k] in front;
      }
    }
  }
}
