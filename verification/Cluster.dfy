/** The API objects the controllers work on, with the fields that carry control state. */
module Cluster {
  // ---- nodes -------------------------------------------------------------------------------

  datatype NodeCondition = NodeCondition(kind: string, status: string)

  datatype Node = Node(name: string, labels: map<string, string>, conditions: seq<NodeCondition>)

  const ZONE_LABEL := "topology.kubernetes.io/zone"

  /** Reading a missing label yields the empty string, so unlabelled nodes share one zone. */
  function Zone(n: Node): string {
    if ZONE_LABEL in n.labels then n.labels[ZONE_LABEL] else ""
  }

  /** Labelled nodes share a zone exactly when their labels agree; unlabelled ones all share one, with
      those labelled by the empty string. */
  lemma ZonesOnLabels(a: Node, b: Node)
    ensures var zone := "topology.kubernetes.io/zone";
            && (zone in a.labels && zone in b.labels ==> (Zone(a) == Zone(b) <==> a.labels[zone] == b.labels[zone]))
            && (zone !in a.labels && zone !in b.labels ==> Zone(a) == Zone(b))
            && (zone in a.labels && zone !in b.labels ==> (Zone(a) == Zone(b) <==> a.labels[zone] == ""))
  {
  }

  /** The first condition of kind Ready decides; a node without one is not ready. */
  predicate ReadyIn(conditions: seq<NodeCondition>) {
    conditions != [] &&
    if conditions[0].kind == "Ready" then conditions[0].status == "True" else ReadyIn(conditions[1..])
  }

  predicate IsNodeReady(n: Node) {
    ReadyIn(n.conditions)
  }

  /** Node names are unique in a cluster. */
  predicate UniqueNames(nodes: seq<Node>) {
    forall i, j :: 0 <= i < j < |nodes| ==> nodes[i].name != nodes[j].name
  }

  function NodeNames(nodes: seq<Node>): (names: seq<string>)
    ensures |names| == |nodes|
    ensures forall i :: 0 <= i < |nodes| ==> names[i] == nodes[i].name
  {
    seq(|nodes|, i requires 0 <= i < |nodes| => nodes[i].name)
  }

  /** A selector is absent, fails to parse, or is a parsed test on labels. */
  datatype LabelSelector = EmptySelector | BadSelector | Selecting(matches: map<string, string> -> bool)

  predicate Selects(s: LabelSelector, n: Node) {
    match s
    case EmptySelector => true
    case BadSelector => false
    case Selecting(f) => f(n.labels)
  }

  // ---- ImagePrefetch -----------------------------------------------------------------------

  datatype PrefetchSpec = PrefetchSpec(
    images: seq<string>, selector: LabelSelector, allNodes: bool, replicas: int, secrets: seq<string>)

  /** Conditions map a condition type to "is its status True"; an absent type has no condition. */
  datatype PrefetchStatus = PrefetchStatus(
    observedGeneration: int, conditions: map<string, bool>, desiredNodes: int,
    pulledNodes: int, pullingNodes: int, failedNodes: int, selectedNodes: seq<string>)

  datatype ImagePrefetch = ImagePrefetch(
    name: string, spec: PrefetchSpec, generation: int, status: PrefetchStatus)

  // ---- NodeImageSet ------------------------------------------------------------------------

  datatype RegistryPolicy = Default | MirrorOnly

  datatype SetSpec = SetSpec(
    images: seq<string>, policy: RegistryPolicy, nodeName: string, secrets: seq<string>, prefetchGeneration: int)

  datatype ImageState = Untracked | Waiting | Downloaded | InProgress | Failed | TemporarilyFailed

  datatype ImageReport = ImageReport(ref: string, state: ImageState)

  datatype SetStatus = SetStatus(
    observedGeneration: int, conditions: map<string, bool>, desiredImages: int,
    availableImages: int, failedImages: int, reports: seq<ImageReport>)

  const NO_STATUS := SetStatus(0, map[], 0, 0, 0, [])

  datatype NodeImageSet = NodeImageSet(
    spec: SetSpec, generation: int, status: SetStatus, finalizers: set<string>, deleting: bool)

  const IMAGE_AVAILABLE := "ImageAvailable"
  const DOWNLOAD_SUCCEEDED := "ImageDownloadSucceeded"

  /** The finalizer a node's controller puts on its sets. */
  const SET_FINALIZER := "nodeimageset.ofen.cybozu.io/finalizer"

  predicate ConditionTrue(conditions: map<string, bool>, kind: string) {
    kind in conditions && conditions[kind]
  }

  /** The sets owned by one ImagePrefetch, one per node, stored under the node's name. */
  type OwnedSets = map<string, NodeImageSet>

  predicate WellKeyed(sets: OwnedSets) {
    forall n :: n in sets ==> sets[n].spec.nodeName == n
  }
}
