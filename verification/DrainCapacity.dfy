/** Resource requests of a Pod and the capacity test of a replacement Node. */
module DrainCapacity {
  import opened Wrappers
  import opened DrainModel
  import opened Counting

  function Get(r: Resources, name: string): nat { if name in r then r[name] else 0 }

  function Max(a: nat, b: nat): nat { if a < b then b else a }

  // ---- Resource lists ------------------------------------------------------

  function Plus(a: Resources, b: Resources): Resources {
    map k | k in a.Keys + b.Keys :: Get(a, k) + Get(b, k)
  }

  /** `a`, raised to `b` where `b` is strictly larger. */
  function RaisedTo(a: Resources, b: Resources): Resources {
    map k | k in a.Keys + b.Keys && (k in a || b[k] > 0) :: Max(Get(a, k), Get(b, k))
  }

  method Add(target: Resources, source: Resources) returns (r: Resources)
    ensures r == Plus(target, source)
  {
    r := target;
    var keys := source.Keys;
    while keys != {}
      invariant keys <= source.Keys && r.Keys == target.Keys + (source.Keys - keys)
      invariant forall k :: k in r ==> r[k] == Get(target, k) + (if k in keys then 0 else Get(source, k))
      decreases keys
    {
      var k :| k in keys;
      r := r[k := Get(r, k) + source[k]];
      keys := keys - {k};
    }
  }

  method Raise(target: Resources, source: Resources) returns (r: Resources)
    ensures r == RaisedTo(target, source)
  {
    r := target;
    var keys := source.Keys;
    while keys != {}
      invariant keys <= source.Keys
      invariant forall k :: k in r <==> k in target || (k in source && k !in keys && source[k] > 0)
      invariant forall k :: k in r ==> r[k] == if k in keys then Get(target, k) else Max(Get(target, k), Get(source, k))
      decreases keys
    {
      var k :| k in keys;
      if Get(r, k) < source[k] { r := r[k := source[k]]; }
      keys := keys - {k};
    }
  }

  function SumOf(list: seq<Resources>): Resources {
    if list == [] then map[] else Plus(SumOf(list[..|list| - 1]), list[|list| - 1])
  }

  function MaxOf(list: seq<Resources>): Resources {
    if list == [] then map[] else RaisedTo(MaxOf(list[..|list| - 1]), list[|list| - 1])
  }

  function PodLevel(pod: Pod): Resources { if pod.podLevel.Some? then pod.podLevel.value else map[] }

  function PodRequests(pod: Pod): Resources {
    RaisedTo(Plus(RaisedTo(SumOf(pod.containers), MaxOf(pod.inits)), pod.overhead), PodLevel(pod))
  }

  method SumContainers(list: seq<Resources>) returns (requests: Resources)
    ensures requests == SumOf(list)
  {
    requests := map[];
    for i := 0 to |list|
      invariant requests == SumOf(list[..i])
    {
      assert list[..i + 1][..i] == list[..i];
      requests := Add(requests, list[i]);
    }
    assert list[..|list|] == list;
  }

  method MaxInits(list: seq<Resources>) returns (initMax: Resources)
    ensures initMax == MaxOf(list)
  {
    initMax := map[];
    for i := 0 to |list|
      invariant initMax == MaxOf(list[..i])
    {
      assert list[..i + 1][..i] == list[..i];
      initMax := Raise(initMax, list[i]);
    }
    assert list[..|list|] == list;
  }

  method DrainPodRequests(pod: Pod) returns (requests: Resources)
    ensures requests == PodRequests(pod)
  {
    requests := SumContainers(pod.containers);
    var initMax := MaxInits(pod.inits);
    requests := Raise(requests, initMax);
    requests := Add(requests, pod.overhead);
    if pod.podLevel.Some? {
      requests := Raise(requests, pod.podLevel.value);
    } else {
      RaisedToNothing(requests);
    }
  }

  lemma RaisedToNothing(r: Resources)
    ensures RaisedTo(r, map[]) == r
  {
  }

  // ---- What one Pod requests -----------------------------------------------

  function Amount(name: string): Resources -> nat { (r: Resources) => Get(r, name) }

  function Largest(list: seq<Resources>, name: string): nat {
    if list == [] then 0 else Max(Largest(list[..|list| - 1], name), Get(list[|list| - 1], name))
  }

  predicate Listed(list: seq<Resources>, name: string) { exists i :: 0 <= i < |list| && name in list[i] }

  lemma PlusAt(a: Resources, b: Resources, name: string)
    ensures Get(Plus(a, b), name) == Get(a, name) + Get(b, name)
    ensures name in Plus(a, b) <==> name in a || name in b
  {
  }

  lemma RaisedToAt(a: Resources, b: Resources, name: string)
    ensures Get(RaisedTo(a, b), name) == Max(Get(a, name), Get(b, name))
    ensures name in RaisedTo(a, b) <==> name in a || Get(b, name) > 0
  {
  }

  lemma {:induction false} SumOfAt(list: seq<Resources>, name: string)
    ensures Get(SumOf(list), name) == Total(Amount(name), list)
    ensures name in SumOf(list) <==> Listed(list, name)
  {
    if list != [] {
      var init, last := list[..|list| - 1], list[|list| - 1];
      SumOfAt(init, name);
      assert forall i :: 0 <= i < |init| ==> init[i] == list[i];
      if Listed(list, name) && name !in last {
        var i :| 0 <= i < |list| && name in list[i];
        assert init[i] == list[i];
      }
    }
  }

  lemma {:induction false} MaxOfAt(list: seq<Resources>, name: string)
    ensures Get(MaxOf(list), name) == Largest(list, name)
    ensures name in MaxOf(list) <==> Largest(list, name) > 0
  {
    if list != [] { MaxOfAt(list[..|list| - 1], name); }
  }

  /** A Pod requests, of each resource, the larger of its pod-level request and
      the larger of its containers' sum and its largest init container, plus
      overhead; it mentions what a container or the overhead lists, or what it
      requests a positive amount of. */
  lemma PodRequestsAt(pod: Pod, name: string)
    ensures Get(PodRequests(pod), name)
         == Max(Max(Total(Amount(name), pod.containers), Largest(pod.inits, name)) + Get(pod.overhead, name),
                Get(PodLevel(pod), name))
    ensures name in PodRequests(pod) <==>
      Listed(pod.containers, name) || name in pod.overhead || Get(PodRequests(pod), name) > 0
  {
    SumOfAt(pod.containers, name);
    MaxOfAt(pod.inits, name);
    var larger := RaisedTo(SumOf(pod.containers), MaxOf(pod.inits));
    RaisedToAt(SumOf(pod.containers), MaxOf(pod.inits), name);
    PlusAt(larger, pod.overhead, name);
    RaisedToAt(Plus(larger, pod.overhead), PodLevel(pod), name);
  }

  // ---- Capacity of a Node --------------------------------------------------

  const PODS := "pods"
  const UNIT := 1_000_000_000

  /** Quantity.Value rounds up to whole units. */
  function WholeUnits(q: nat): nat { (q + UNIT - 1) / UNIT }

  /** Another Pod that occupies the Node. */
  predicate Occupies(pod: Pod, node: Node, other: Pod) {
    other.nodeName == node.name && other.uid != pod.uid && !other.Finished()
  }

  function Occupancy(pod: Pod, node: Node): Pod -> nat {
    (other: Pod) => if Occupies(pod, node, other) then 1 else 0
  }

  function Usage(pod: Pod, node: Node, name: string): Pod -> nat {
    (other: Pod) => if Occupies(pod, node, other) then Get(PodRequests(other), name) else 0
  }

  ghost predicate HasCapacity(pod: Pod, node: Node, pods: seq<Pod>) {
    && (PODS in node.allocatable ==> Total(Occupancy(pod, node), pods) + 1 <= WholeUnits(node.allocatable[PODS]))
    && forall name :: name in PodRequests(pod) ==>
         && name in node.allocatable
         && Total(Usage(pod, node, name), pods) + PodRequests(pod)[name] <= node.allocatable[name]
  }

  method SumUsage(pod: Pod, node: Node, pods: seq<Pod>) returns (used: Resources, active: nat)
    ensures active == Total(Occupancy(pod, node), pods)
    ensures forall name :: Get(used, name) == Total(Usage(pod, node, name), pods)
  {
    used, active := map[], 0;
    for i := 0 to |pods|
      invariant active == Total(Occupancy(pod, node), pods[..i])
      invariant forall name :: Get(used, name) == Total(Usage(pod, node, name), pods[..i])
    {
      assert pods[..i + 1][..i] == pods[..i];
      if !Occupies(pod, node, pods[i]) { continue; }
      active := active + 1;
      var requests := DrainPodRequests(pods[i]);
      var sum := Add(used, requests);
      forall name: string ensures Get(sum, name) == Get(used, name) + Get(requests, name) {
        PlusAt(used, requests, name);
      }
      used := sum;
    }
    assert pods[..|pods|] == pods;
  }

  method Fits(requested: Resources, used: Resources, allocatable: Resources) returns (ok: bool)
    ensures ok <==> forall name :: name in requested ==>
      name in allocatable && Get(used, name) + requested[name] <= allocatable[name]
  {
    var names := requested.Keys;
    while names != {}
      invariant names <= requested.Keys
      invariant forall name :: name in requested && name !in names ==>
        name in allocatable && Get(used, name) + requested[name] <= allocatable[name]
      decreases names
    {
      var name :| name in names;
      if name !in allocatable { return false; }
      var available: int := allocatable[name] - Get(used, name);
      if available < requested[name] { return false; }
      names := names - {name};
    }
    return true;
  }

  method DrainNodeHasCapacity(pod: Pod, node: Node, pods: seq<Pod>) returns (ok: bool)
    ensures ok <==> HasCapacity(pod, node, pods)
  {
    var used, active := SumUsage(pod, node, pods);
    if PODS in node.allocatable && active + 1 > WholeUnits(node.allocatable[PODS]) { return false; }
    var requested := DrainPodRequests(pod);
    ok := Fits(requested, used, node.allocatable);
  }

  /** The verdict does not depend on the order in which Pods are listed. */
  lemma CapacityForgetsOrder(pod: Pod, node: Node, a: seq<Pod>, b: seq<Pod>)
    requires multiset(a) == multiset(b)
    ensures HasCapacity(pod, node, a) <==> HasCapacity(pod, node, b)
  {
    TotalPermutes(Occupancy(pod, node), a, b);
    forall name: string ensures Total(Usage(pod, node, name), a) == Total(Usage(pod, node, name), b) {
      TotalPermutes(Usage(pod, node, name), a, b);
    }
  }

  function OnNode(name: string): Pod -> bool { (p: Pod) => p.nodeName == name }

  /** The node-indexed list gives the verdict of the list of all Pods. */
  lemma CapacityFromNodeIndex(pod: Pod, node: Node, all: seq<Pod>)
    ensures HasCapacity(pod, node, Filter(OnNode(node.name), all)) <==> HasCapacity(pod, node, all)
  {
    var indexed := Filter(OnNode(node.name), all);
    TotalOfFiltered(Occupancy(pod, node), OnNode(node.name), all);
    forall name: string ensures Total(Usage(pod, node, name), indexed) == Total(Usage(pod, node, name), all) {
      TotalOfFiltered(Usage(pod, node, name), OnNode(node.name), all);
    }
  }
}
