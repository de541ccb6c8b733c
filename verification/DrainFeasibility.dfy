/** The search for a replacement Node before a Pod with hard placement is evicted. */
module DrainFeasibility {
  import opened Wrappers
  import opened DrainModel
  import opened Counting
  import DrainCapacity
  import DrainSpread

  /** The hard scheduling intent that is content-addressed. */
  datatype Evidence = Evidence(
    schedulerName: string, nodeSelector: Labels, affinity: Option<seq<Term>>, constraints: seq<Constraint>)

  function EvidenceOf(pod: Pod): Evidence {
    Evidence(if pod.schedulerName == "" then "default-scheduler" else pod.schedulerName,
             pod.nodeSelector, pod.affinity, pod.constraints)
  }

  predicate HardSpread(pod: Pod) { exists i :: 0 <= i < |pod.constraints| && pod.constraints[i].doNotSchedule }

  predicate HardPlacement(pod: Pod) { pod.nodeSelector != map[] || pod.affinity.Some? || HardSpread(pod) }

  /** Three uncached lists; `onNode` is the node-name index. */
  datatype Reader = Reader(
    nodes: Option<seq<Node>>, inNamespace: Option<seq<Pod>>, onNode: string -> Option<seq<Pod>>)
  {
    function SpreadPods(pod: Pod): Option<seq<Pod>> { if HardSpread(pod) then inNamespace else Some([]) }
  }

  datatype Error =
    | PlacementChanged | NodeListFailed | NamespaceListFailed | NodePodsListFailed
    | BadSpread(error: DrainSpread.SpreadError) | NoFeasibleNode

  datatype Outcome = Skipped | Feasible | Broken

  /** What the search makes of one Node. */
  ghost function OutcomeOf(
    pod: Pod, node: Node, nodes: seq<Node>, spreadPods: seq<Pod>, onNode: string -> Option<seq<Pod>>): Outcome
  {
    if node.name == pod.nodeName || !CandidateNode(pod, node) then Skipped
    else if onNode(node.name).None? then Broken
    else if !DrainCapacity.HasCapacity(pod, node, onNode(node.name).value) then Skipped
    else if DrainSpread.SpreadAllows(pod, node, nodes, spreadPods) then Feasible
    else if DrainSpread.FirstIs(pod, node, nodes, spreadPods, DrainSpread.Refuse) then Skipped
    else Broken
  }

  method TryNode(pod: Pod, node: Node, nodes: seq<Node>, spreadPods: seq<Pod>, onNode: string -> Option<seq<Pod>>)
    returns (outcome: Outcome, error: Error)
    ensures outcome == OutcomeOf(pod, node, nodes, spreadPods, onNode)
  {
    error := NoFeasibleNode;
    if node.name == pod.nodeName || !CandidateNode(pod, node) { return Skipped, error; }
    var nodePods := onNode(node.name);
    if nodePods.None? { return Broken, NodePodsListFailed; }
    var fits := DrainCapacity.DrainNodeHasCapacity(pod, node, nodePods.value);
    if !fits { return Skipped, error; }
    var spread := DrainSpread.DrainTopologySpreadAllows(pod, node, nodes, spreadPods);
    match spread {
      case Err(e) => return Broken, BadSpread(e);
      case Ok(allowed) => return if allowed then Feasible else Skipped, error;
    }
  }

  ghost predicate FoundBeforeBreaking(
    pod: Pod, nodes: seq<Node>, spreadPods: seq<Pod>, onNode: string -> Option<seq<Pod>>)
  {
    exists i ::
      && 0 <= i < |nodes| && OutcomeOf(pod, nodes[i], nodes, spreadPods, onNode) == Feasible
      && forall k :: 0 <= k < i ==> OutcomeOf(pod, nodes[k], nodes, spreadPods, onNode) == Skipped
  }

  /** Nodes are tried in order; the first feasible one ends the search, and so
      does the first failed read or malformed constraint. */
  method SearchNodes(pod: Pod, nodes: seq<Node>, spreadPods: seq<Pod>, onNode: string -> Option<seq<Pod>>)
    returns (r: Result<(), Error>)
    ensures r.Ok? <==> FoundBeforeBreaking(pod, nodes, spreadPods, onNode)
  {
    for i := 0 to |nodes|
      invariant forall k :: 0 <= k < i ==> OutcomeOf(pod, nodes[k], nodes, spreadPods, onNode) == Skipped
    {
      var outcome, error := TryNode(pod, nodes[i], nodes, spreadPods, onNode);
      if outcome == Broken { return Err(error); }
      if outcome == Feasible { return Ok(()); }
    }
    return Err(NoFeasibleNode);
  }

  method ValidateDrainPlacementFeasibility(
    pod: Option<Pod>, placementHash: string, hash: Evidence -> Option<string>, reader: Reader)
    returns (r: Result<(), Error>)
    ensures pod.None? || !HardPlacement(pod.value) ==> r.Ok?
    ensures pod.Some? && HardPlacement(pod.value) ==>
      (r.Ok? <==>
        && hash(EvidenceOf(pod.value)) == Some(placementHash)
        && reader.nodes.Some? && reader.SpreadPods(pod.value).Some?
        && FoundBeforeBreaking(pod.value, reader.nodes.value, reader.SpreadPods(pod.value).value, reader.onNode))
  {
    if pod.None? || !HardPlacement(pod.value) { return Ok(()); }
    var actual := hash(EvidenceOf(pod.value));
    if actual.None? || actual.value != placementHash { return Err(PlacementChanged); }
    if reader.nodes.None? { return Err(NodeListFailed); }
    var spreadPods := reader.SpreadPods(pod.value);
    if spreadPods.None? { return Err(NamespaceListFailed); }
    r := SearchNodes(pod.value, reader.nodes.value, spreadPods.value, reader.onNode);
  }

  // ---- Against one state of the cluster ------------------------------------

  function InNamespace(ns: string): Pod -> bool { (p: Pod) => p.ns == ns }

  /** Every read succeeds and answers from the same Nodes and Pods. */
  ghost predicate Reads(reader: Reader, pod: Pod, nodes: seq<Node>, all: seq<Pod>) {
    && reader.nodes == Some(nodes) && reader.inNamespace == Some(Filter(InNamespace(pod.ns), all))
    && forall name :: reader.onNode(name) == Some(Filter(DrainCapacity.OnNode(name), all))
  }

  predicate SelectorsWellFormed(pod: Pod) {
    forall i :: 0 <= i < |pod.constraints| && pod.constraints[i].doNotSchedule ==>
      DrainSpread.EffectiveSelector(pod, pod.constraints[i]).Ok?
  }

  /** A replacement Node, judged over all Pods of the cluster. */
  ghost predicate Suitable(pod: Pod, node: Node, nodes: seq<Node>, all: seq<Pod>) {
    && node.name != pod.nodeName && Ready(node) && !node.unschedulable
    && MatchesSelectorAffinity(pod, node) && TaintsTolerated(pod, node)
    && DrainCapacity.HasCapacity(pod, node, all)
    && DrainSpread.SpreadAllows(pod, node, nodes, all)
  }

  lemma CountInNamespace(pod: Pod, c: Constraint, s: Option<LabelSelector>, nodes: seq<Node>, all: seq<Pod>, d: string)
    ensures DrainSpread.Count(pod, c, s, nodes, Filter(InNamespace(pod.ns), all), d)
         == DrainSpread.Count(pod, c, s, nodes, all, d)
  {
    TotalOfFiltered(DrainSpread.Weight(pod, c, s, nodes, d), InNamespace(pod.ns), all);
  }

  /** A constraint's verdict is the same on the namespace's Pods as on all Pods. */
  lemma VerdictInNamespace(pod: Pod, c: Constraint, node: Node, nodes: seq<Node>, all: seq<Pod>)
    ensures DrainSpread.ConstraintVerdict(pod, c, node, nodes, Filter(InNamespace(pod.ns), all))
         == DrainSpread.ConstraintVerdict(pod, c, node, nodes, all)
  {
    var s := DrainSpread.EffectiveSelector(pod, c);
    if s.Ok? {
      var some := Filter(InNamespace(pod.ns), all);
      forall d: string
        ensures DrainSpread.Count(pod, c, s.value, nodes, some, d) == DrainSpread.Count(pod, c, s.value, nodes, all, d)
      {
        CountInNamespace(pod, c, s.value, nodes, all, d);
      }
      DrainSpread.RoomDependsOnCounts(
        pod, c, s.value, nodes, some, all, DrainSpread.Domains(pod, c, nodes), Lookup(node.labels, c.topologyKey));
    }
  }

  lemma {:induction false} FirstNotPassing(
    pod: Pod, node: Node, nodes: seq<Node>, pods: seq<Pod>, n: nat) returns (i: nat)
    requires n <= |pod.constraints| && !DrainSpread.PassesBefore(pod, node, nodes, pods, n)
    ensures i < n && DrainSpread.PassesBefore(pod, node, nodes, pods, i)
    ensures DrainSpread.ConstraintVerdict(pod, pod.constraints[i], node, nodes, pods) != DrainSpread.Pass
  {
    if DrainSpread.PassesBefore(pod, node, nodes, pods, n - 1) {
      i := n - 1;
    } else {
      i := FirstNotPassing(pod, node, nodes, pods, n - 1);
    }
  }

  /** With well-formed selectors the spread test never errs. */
  lemma SpreadDecides(pod: Pod, node: Node, nodes: seq<Node>, pods: seq<Pod>)
    requires SelectorsWellFormed(pod) && !DrainSpread.SpreadAllows(pod, node, nodes, pods)
    ensures DrainSpread.FirstIs(pod, node, nodes, pods, DrainSpread.Refuse)
  {
    var i := FirstNotPassing(pod, node, nodes, pods, |pod.constraints|);
    assert DrainSpread.ConstraintVerdict(pod, pod.constraints[i], node, nodes, pods) == DrainSpread.Refuse;
  }

  lemma SpreadOverNamespace(pod: Pod, node: Node, nodes: seq<Node>, all: seq<Pod>, spreadPods: seq<Pod>)
    requires spreadPods == if HardSpread(pod) then Filter(InNamespace(pod.ns), all) else []
    ensures DrainSpread.SpreadAllows(pod, node, nodes, spreadPods) <==> DrainSpread.SpreadAllows(pod, node, nodes, all)
  {
    if HardSpread(pod) {
      forall i | 0 <= i < |pod.constraints|
        ensures DrainSpread.ConstraintVerdict(pod, pod.constraints[i], node, nodes, spreadPods)
             == DrainSpread.ConstraintVerdict(pod, pod.constraints[i], node, nodes, all)
      {
        VerdictInNamespace(pod, pod.constraints[i], node, nodes, all);
      }
    }
  }

  /** One Node is found feasible exactly when it is suitable, and never breaks the search. */
  lemma OutcomeIsSuitability(
    pod: Pod, node: Node, nodes: seq<Node>, all: seq<Pod>, reader: Reader, spreadPods: seq<Pod>)
    requires Reads(reader, pod, nodes, all) && SelectorsWellFormed(pod) && reader.SpreadPods(pod) == Some(spreadPods)
    ensures OutcomeOf(pod, node, nodes, spreadPods, reader.onNode)
         == if Suitable(pod, node, nodes, all) then Feasible else Skipped
  {
    DrainCapacity.CapacityFromNodeIndex(pod, node, all);
    SpreadOverNamespace(pod, node, nodes, all, spreadPods);
    if !DrainSpread.SpreadAllows(pod, node, nodes, spreadPods) {
      SpreadDecides(pod, node, nodes, spreadPods);
    }
  }

  lemma {:induction false} FirstSuitable(pod: Pod, nodes: seq<Node>, all: seq<Pod>, i: nat) returns (k: nat)
    requires i < |nodes| && Suitable(pod, nodes[i], nodes, all)
    ensures k <= i && Suitable(pod, nodes[k], nodes, all)
    ensures forall j :: 0 <= j < k ==> !Suitable(pod, nodes[j], nodes, all)
  {
    if j :| 0 <= j < i && Suitable(pod, nodes[j], nodes, all) {
      k := FirstSuitable(pod, nodes, all, j);
    } else {
      k := i;
    }
  }

  /** For a hard placement with an unchanged hash, no read error and well-formed
      selectors, the search succeeds if and only if some Node is suitable. */
  lemma SearchSucceedsExactly(pod: Pod, nodes: seq<Node>, all: seq<Pod>, reader: Reader)
    requires Reads(reader, pod, nodes, all) && SelectorsWellFormed(pod)
    ensures reader.SpreadPods(pod).Some?
    ensures FoundBeforeBreaking(pod, nodes, reader.SpreadPods(pod).value, reader.onNode)
       <==> exists i :: 0 <= i < |nodes| && Suitable(pod, nodes[i], nodes, all)
  {
    var spreadPods := reader.SpreadPods(pod).value;
    forall k | 0 <= k < |nodes|
      ensures OutcomeOf(pod, nodes[k], nodes, spreadPods, reader.onNode)
           == if Suitable(pod, nodes[k], nodes, all) then Feasible else Skipped
    {
      OutcomeIsSuitability(pod, nodes[k], nodes, all, reader, spreadPods);
    }
    if i :| 0 <= i < |nodes| && Suitable(pod, nodes[i], nodes, all) {
      var k := FirstSuitable(pod, nodes, all, i);
      assert OutcomeOf(pod, nodes[k], nodes, spreadPods, reader.onNode) == Feasible;
    }
  }
}
