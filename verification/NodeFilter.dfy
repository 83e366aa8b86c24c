/** Which ImagePrefetches a node event wakes, and that no needed wake-up is missed. */
module NodeFilter {
  import opened Basics
  import opened Cluster
  import opened Selection
  import opened Spreading

  // ---- the handler -------------------------------------------------------------------------

  /** Whether the handler enqueues one ImagePrefetch for an event on node n. */
  predicate Wakes(p: ImagePrefetch, n: Node) {
    if p.spec.allNodes then Selects(p.spec.selector, n) else n.name in p.status.selectedNodes
  }

  predicate Unparsable(p: ImagePrefetch) {
    p.spec.allNodes && p.spec.selector.BadSelector?
  }

  /** In all-nodes mode the selector must match the node's labels, in replica mode it must be selected. */
  predicate Concerned(spec: PrefetchSpec, status: PrefetchStatus, n: Node)
    requires spec.allNodes ==> !spec.selector.BadSelector?
  {
    if !spec.allNodes then n.name in status.selectedNodes
    else spec.selector.EmptySelector? || spec.selector.matches(n.labels)
  }

  /** The names the handler answers for an event on node n. */
  function WokenBy(prefetches: seq<ImagePrefetch>, n: Node): set<string> {
    if exists i :: 0 <= i < |prefetches| && Unparsable(prefetches[i]) then {}
    else set i | 0 <= i < |prefetches| && Wakes(prefetches[i], n) :: prefetches[i].name
  }

  /** The handler's map function: the names of the ImagePrefetches to reconcile. One all-nodes
      ImagePrefetch with an unparsable selector makes it give up on all of them. */
  method NodeHandler(prefetches: seq<ImagePrefetch>, n: Node) returns (requests: seq<string>)
    ensures var silenced := exists i ::
              0 <= i < |prefetches| && prefetches[i].spec.allNodes && prefetches[i].spec.selector.BadSelector?;
            if silenced then requests == []
            else
              forall name :: name in requests <==>
                exists i ::
                  0 <= i < |prefetches| && prefetches[i].name == name
                  && Concerned(prefetches[i].spec, prefetches[i].status, n)
    ensures (exists i :: 0 <= i < |prefetches| && Unparsable(prefetches[i])) ==> requests == []
    ensures (forall i :: 0 <= i < |prefetches| ==> !Unparsable(prefetches[i])) ==>
              forall name :: name in requests <==>
                    exists i :: 0 <= i < |prefetches| && prefetches[i].name == name && Wakes(prefetches[i], n)
    ensures ToSet(requests) == WokenBy(prefetches, n)
  {
    requests := [];
    for i := 0 to |prefetches|
      invariant forall j :: 0 <= j < i ==> !Unparsable(prefetches[j])
      invariant forall name :: name in requests <==>
                  exists j :: 0 <= j < i && prefetches[j].name == name && Wakes(prefetches[j], n)
    {
      var p := prefetches[i];
      if p.spec.allNodes {
        if p.spec.selector.EmptySelector? {
          requests := requests + [p.name];
          continue;
        }
        if p.spec.selector.BadSelector? {
          return [];
        }
        if p.spec.selector.matches(n.labels) {
          requests := requests + [p.name];
        }
        continue;
      }
      if n.name in p.status.selectedNodes {
        requests := requests + [p.name];
      }
    }
  }

  // ---- node events -------------------------------------------------------------------------

  datatype NodeEvent = Created(node: Node) | Removed(node: Node) | Changed(before: Node, after: Node)

  /** Updates are let through only when readiness flips. */
  predicate PassesPredicate(e: NodeEvent) {
    e.Changed? ==> IsNodeReady(e.before) != IsNodeReady(e.after)
  }

  /** An event that reaches the map function calls it for every version of the node it carries. */
  predicate Enqueued(p: ImagePrefetch, e: NodeEvent) {
    PassesPredicate(e) &&
    match e
    case Created(n) => Wakes(p, n)
    case Removed(n) => Wakes(p, n)
    case Changed(a, b) => Wakes(p, a) || Wakes(p, b)
  }

  /** The event turns the node list `pre` into `post`; a change keeps only the name. */
  ghost predicate Happens(e: NodeEvent, pre: seq<Node>, post: seq<Node>) {
    && UniqueNames(pre) && UniqueNames(post)
    && match e
       case Created(n) => n.name !in NodeNames(pre) && ToSet(post) == ToSet(pre) + {n}
       case Removed(n) => n in pre && ToSet(post) == ToSet(pre) - {n}
       case Changed(a, b) =>
         && a in pre && a.name == b.name
         && ToSet(post) == ToSet(pre) - {a} + {b}
  }

  /** The spec is observed and, in replica mode, every selected node is still a ready target. */
  ghost predicate SettledOn(p: ImagePrefetch, nodes: seq<Node>) {
    !p.spec.allNodes ==> !NeedsSelection(p, ReadyTargets(p.spec.selector, nodes))
  }

  /** Same answer: both fail alike, or both name the same nodes. */
  predicate SameTargets(a: Result<seq<string>, SelectError>, b: Result<seq<string>, SelectError>) {
    if a.Ok? && b.Ok? then ToSet(a.value) == ToSet(b.value) else a == b
  }

  function TargetNodes(p: ImagePrefetch, nodes: seq<Node>): set<Node> {
    set n | n in nodes && Selects(p.spec.selector, n) && IsNodeReady(n)
  }

  lemma NamesOfTargets(p: ImagePrefetch, nodes: seq<Node>)
    ensures ToSet(NodeNames(ReadyTargets(p.spec.selector, nodes))) == set n | n in TargetNodes(p, nodes) :: n.name
  {
    var ready := ReadyTargets(p.spec.selector, nodes);
    ReadyTargetsMembers(p.spec.selector, nodes);
    forall x | x in NodeNames(ready) ensures x in set n | n in TargetNodes(p, nodes) :: n.name {
      var i :| 0 <= i < |ready| && NodeNames(ready)[i] == x;
      assert ready[i] in TargetNodes(p, nodes);
    }
    forall n | n in TargetNodes(p, nodes) ensures n.name in NodeNames(ready) {
      var i :| 0 <= i < |ready| && ready[i] == n;
      assert NodeNames(ready)[i] == n.name;
    }
  }

  lemma UnmatchedEventKeepsTargets(p: ImagePrefetch, e: NodeEvent, pre: seq<Node>, post: seq<Node>)
    requires Happens(e, pre, post) && PassesPredicate(e) && p.spec.allNodes && !Enqueued(p, e)
    ensures TargetNodes(p, pre) == TargetNodes(p, post)
  {
    forall n ensures n in TargetNodes(p, pre) <==> n in TargetNodes(p, post) {
      assert n in post <==> n in ToSet(post);
      assert n in pre <==> n in ToSet(pre);
    }
  }

  lemma ForeignEventKeepsName(p: ImagePrefetch, e: NodeEvent, pre: seq<Node>, post: seq<Node>, name: string)
    requires Happens(e, pre, post) && PassesPredicate(e) && !p.spec.allNodes && !Enqueued(p, e)
    requires name in p.status.selectedNodes && name in NodeNames(ReadyTargets(p.spec.selector, pre))
    ensures name in NodeNames(ReadyTargets(p.spec.selector, post))
  {
    NamesOfTargets(p, pre);
    NamesOfTargets(p, post);
    assert name in ToSet(NodeNames(ReadyTargets(p.spec.selector, pre)));
    var n :| n in TargetNodes(p, pre) && n.name == name;
    assert n in ToSet(pre) && n in ToSet(post);
    assert n in TargetNodes(p, post);
    assert name in ToSet(NodeNames(ReadyTargets(p.spec.selector, post)));
  }

  /** The filter is exact: an event that changes the targets of a settled ImagePrefetch wakes it if and
      only if it is a creation, a deletion or a readiness flip, whatever else changes along with it. */
  lemma FilterIsComplete(p: ImagePrefetch, e: NodeEvent, pre: seq<Node>, post: seq<Node>,
                         was: Result<seq<string>, SelectError>, now: Result<seq<string>, SelectError>)
    requires Happens(e, pre, post) && SettledOn(p, pre)
    requires TargetOutcome(p, pre, was) && TargetOutcome(p, post, now)
    requires !SameTargets(was, now)
    ensures Enqueued(p, e) <==>
              e.Created? || e.Removed? || (e.Changed? && IsNodeReady(e.before) != IsNodeReady(e.after))
  {
    if PassesPredicate(e) && !Enqueued(p, e) {
      if p.spec.allNodes {
        UnmatchedEventKeepsTargets(p, e, pre, post);
        NamesOfTargets(p, pre);
        NamesOfTargets(p, post);
      } else {
        forall i | 0 <= i < |p.status.selectedNodes|
          ensures p.status.selectedNodes[i] in NodeNames(ReadyTargets(p.spec.selector, post))
        {
          ForeignEventKeepsName(p, e, pre, post, p.status.selectedNodes[i]);
        }
      }
      assert false;
    }
  }

  function Versions(e: NodeEvent): set<Node> {
    match e
    case Created(n) => {n}
    case Removed(n) => {n}
    case Changed(a, b) => {a, b}
  }

  /** Joined with the handler: as long as every listed all-nodes selector parses, such an event passes the
      predicate and has the handler answer with this ImagePrefetch. */
  lemma EventReachesHandler(prefetches: seq<ImagePrefetch>, i: nat, e: NodeEvent, pre: seq<Node>, post: seq<Node>,
                            was: Result<seq<string>, SelectError>, now: Result<seq<string>, SelectError>)
    requires i < |prefetches| && forall j :: 0 <= j < |prefetches| ==> !Unparsable(prefetches[j])
    requires Happens(e, pre, post) && SettledOn(prefetches[i], pre)
    requires e.Created? || e.Removed? || (e.Changed? && IsNodeReady(e.before) != IsNodeReady(e.after))
    requires TargetOutcome(prefetches[i], pre, was) && TargetOutcome(prefetches[i], post, now)
    requires !SameTargets(was, now)
    ensures PassesPredicate(e) && exists n :: n in Versions(e) && prefetches[i].name in WokenBy(prefetches, n)
  {
    FilterIsComplete(prefetches[i], e, pre, post, was, now);
    var n :| n in Versions(e) && Wakes(prefetches[i], n);
    assert prefetches[i].name in WokenBy(prefetches, n);
  }

  // ---- what the filter lets slip ------------------------------------------------------------

  /** Whether the node of this name matters to the targets if it matches. */
  predicate Concerns(p: ImagePrefetch, name: string) {
    p.spec.allNodes || (p.spec.replicas > 0 && name in p.status.selectedNodes)
  }

  lemma TargetName(p: ImagePrefetch, nodes: seq<Node>, n: Node)
    requires UniqueNames(nodes) && n in nodes
    ensures n.name in NodeNames(ReadyTargets(p.spec.selector, nodes)) <==> n in TargetNodes(p, nodes)
  {
    NamesOfTargets(p, nodes);
    assert n.name in ToSet(NodeNames(ReadyTargets(p.spec.selector, nodes))) <==>
          n.name in NodeNames(ReadyTargets(p.spec.selector, nodes));
    forall m | m in nodes && m.name == n.name ensures m == n { SameName(nodes, m, n); }
  }

  /** A change of one node moves no other name into or out of the targets. */
  lemma OtherNamesStay(p: ImagePrefetch, a: Node, b: Node, pre: seq<Node>, post: seq<Node>, name: string)
    requires Happens(Changed(a, b), pre, post) && name != a.name
    ensures name in NodeNames(ReadyTargets(p.spec.selector, pre)) <==>
              name in NodeNames(ReadyTargets(p.spec.selector, post))
  {
    NamesOfTargets(p, pre);
    NamesOfTargets(p, post);
    forall n: Node | n.name == name ensures n in TargetNodes(p, pre) <==> n in TargetNodes(p, post) {
      assert n in pre <==> n in ToSet(pre);
      assert n in post <==> n in ToSet(post);
    }
    assert name in ToSet(NodeNames(ReadyTargets(p.spec.selector, pre))) <==>
          name in ToSet(NodeNames(ReadyTargets(p.spec.selector, post)));
  }

  /** A ready node that stops or starts matching changes the targets when it is one of those that count. */
  lemma RelabelChangesTargets(p: ImagePrefetch, a: Node, b: Node, pre: seq<Node>, post: seq<Node>,
                              was: Result<seq<string>, SelectError>, now: Result<seq<string>, SelectError>)
    requires Happens(Changed(a, b), pre, post) && SettledOn(p, pre) && Distinct(p.status.selectedNodes)
    requires TargetOutcome(p, pre, was) && TargetOutcome(p, post, now)
    requires IsNodeReady(a) && IsNodeReady(b) && Selects(p.spec.selector, a) != Selects(p.spec.selector, b)
    requires Concerns(p, a.name)
    ensures !SameTargets(was, now)
  {
    assert b in ToSet(post);
    TargetName(p, pre, a);
    TargetName(p, post, b);
    if !p.spec.allNodes && now.Ok? {
      assert a.name in was.value;
      assert NeedsSelection(p, ReadyTargets(p.spec.selector, post));
      OnlyReadyAreChosen(p, post, now.value, a.name);
    }
    if was.Ok? && now.Ok? {
      assert a.name in ToSet(was.value) <==> a.name in was.value;
      assert a.name in ToSet(now.value) <==> a.name in now.value;
    }
  }

  lemma OnlyReadyAreChosen(p: ImagePrefetch, nodes: seq<Node>, names: seq<string>, name: string)
    requires UniqueNames(nodes) && Distinct(p.status.selectedNodes) && TargetOutcome(p, nodes, Ok(names))
    requires name !in NodeNames(ReadyTargets(p.spec.selector, nodes))
    ensures name !in names
  {
    var ready := ReadyTargets(p.spec.selector, nodes);
    ReadyTargetsMembers(p.spec.selector, nodes);
    if !p.spec.allNodes && NeedsSelection(p, ready) {
      var sel: seq<Node> :| IsSelection(p.status.selectedNodes, p.spec.replicas, ready, sel) && names == NodeNames(sel);
      SelectionShape(p.status.selectedNodes, p.spec.replicas, ready, sel);
      forall i | 0 <= i < |sel| ensures sel[i].name != name { NameListed(ready, sel[i]); }
    }
  }

  lemma OtherwiseTargetsStay(p: ImagePrefetch, a: Node, b: Node, pre: seq<Node>, post: seq<Node>,
                             was: Result<seq<string>, SelectError>, now: Result<seq<string>, SelectError>)
    requires Happens(Changed(a, b), pre, post) && SettledOn(p, pre)
    requires TargetOutcome(p, pre, was) && TargetOutcome(p, post, now)
    requires IsNodeReady(a) == IsNodeReady(b)
    requires !IsNodeReady(a) || Selects(p.spec.selector, a) == Selects(p.spec.selector, b)
          || !Concerns(p, a.name)
    ensures SameTargets(was, now)
  {
    assert b in ToSet(post);
    TargetName(p, pre, a);
    TargetName(p, post, b);
    var before, after := NodeNames(ReadyTargets(p.spec.selector, pre)), NodeNames(ReadyTargets(p.spec.selector, post));
    forall name | name != a.name ensures name in before <==> name in after { OtherNamesStay(p, a, b, pre, post, name); }
    if p.spec.allNodes {
      assert ToSet(before) == ToSet(after);
    } else if p.spec.replicas > 0 {
      assert NeedsSelection(p, ReadyTargets(p.spec.selector, post)) ==>
            NeedsSelection(p, ReadyTargets(p.spec.selector, pre));
    }
  }

  /** The missed wake-ups, exactly: an update that leaves readiness alone never wakes anybody, and it
      changes the targets of a settled ImagePrefetch if and only if a ready node starts or stops
      matching the selector, in replica mode a selected one. */
  lemma RelabelIsMissed(p: ImagePrefetch, a: Node, b: Node, pre: seq<Node>, post: seq<Node>,
                        was: Result<seq<string>, SelectError>, now: Result<seq<string>, SelectError>)
    requires Happens(Changed(a, b), pre, post) && SettledOn(p, pre) && Distinct(p.status.selectedNodes)
    requires TargetOutcome(p, pre, was) && TargetOutcome(p, post, now)
    requires IsNodeReady(a) == IsNodeReady(b)
    ensures !Enqueued(p, Changed(a, b))
    ensures !SameTargets(was, now) <==>
              IsNodeReady(a) && Selects(p.spec.selector, a) != Selects(p.spec.selector, b) && Concerns(p, a.name)
  {
    if IsNodeReady(a) && Selects(p.spec.selector, a) != Selects(p.spec.selector, b) && Concerns(p, a.name) {
      RelabelChangesTargets(p, a, b, pre, post, was, now);
    } else {
      OtherwiseTargetsStay(p, a, b, pre, post, was, now);
    }
  }
}
