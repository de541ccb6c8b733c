/** Cleanup of the manager-owned Leases of a device under deletion: the whole set
    is validated first, then deleted with the mutation fence last. */
module ManagedLeases {
  import opened Wrappers
  import Counting
  import Sorting
  import Text

  const MANAGED := "topology.cisco.vk/managed"
  const DEVICE_NAMESPACE := "topology.cisco.vk/device-namespace"
  const DEVICE_NAME := "topology.cisco.vk/device-name"
  const DEVICE_UID := "topology.cisco.vk/device-uid"
  const NODE_NAME := "topology.cisco.vk/node-name"
  const NODE_UID := "topology.cisco.vk/node-uid"
  const WORKER_USERNAME := "topology.cisco.vk/worker-username"
  const WORKER_PROTOCOL := "topology.cisco.vk/worker-protocol"
  const LEASE_PURPOSE := "topology.cisco.vk/lease-purpose"
  const RETAIN_LEASE := "topology.cisco.vk/retain-lease"
  const DEVICE_LABEL := "cisco.vk/device"
  const FAMILY_LABEL := "cisco.vk/family"

  const HEARTBEAT := "node-heartbeat"
  const CONFIG := "config-family"
  const MUTATION := "device-mutation"
  const MUTATION_FAMILY := "device-disruptive-mutation"
  const NODE_LEASE_NAMESPACE := "kube-node-lease"

  datatype Owner = Owner(apiVersion: string, kind: string, name: string, uid: string)

  datatype Lease = Lease(
    ns: string, name: string, uid: string, resourceVersion: string,
    annotations: map<string, string>, labels: map<string, string>, owners: seq<Owner>,
    terminating: bool, finalizers: seq<string>)
  {
    function Purpose(): string { Lookup(annotations, LEASE_PURPOSE) }

    predicate Mutation() { Purpose() == MUTATION }

    function SortKey(): string { ns + "\0" + name }
  }

  /** The device and Node incarnations under deletion. The worker names are empty
      once the Node is gone; `names` maps a family to its canonical Lease name. */
  datatype Binding = Binding(
    deviceNs: string, deviceName: string, deviceUID: string, deviceKey: string,
    nodeName: string, nodeUID: string, appWorker: string, networkWorker: string, names: string -> string)
  {
    predicate Ours(l: Lease) {
      Lookup(l.annotations, MANAGED) == "true" && Lookup(l.annotations, DEVICE_UID) == deviceUID
    }

    function Worker(l: Lease): string {
      var worker := if l.Purpose() == HEARTBEAT then appWorker else networkWorker;
      if worker == "" then Lookup(l.annotations, WORKER_USERNAME) else worker
    }

    function ExpectedAnnotations(l: Lease): map<string, string> {
      map[MANAGED := "true", DEVICE_NAMESPACE := deviceNs, DEVICE_NAME := deviceName, DEVICE_UID := deviceUID,
          NODE_NAME := nodeName, NODE_UID := nodeUID, WORKER_USERNAME := Worker(l), WORKER_PROTOCOL := "rollout-v1",
          LEASE_PURPOSE := l.Purpose(), RETAIN_LEASE := "true"]
    }

    /** The purpose, family, namespace and name belong together. */
    predicate CanonicalIdentity(l: Lease) {
      var family := Lookup(l.labels, FAMILY_LABEL);
      if l.Purpose() == HEARTBEAT then
        l.ns == NODE_LEASE_NAMESPACE && l.name == nodeName && family == HEARTBEAT
      else if l.Purpose() == MUTATION then
        family == MUTATION_FAMILY && l.name == names(MUTATION_FAMILY)
      else if l.Purpose() == CONFIG then
        family != "" && family != HEARTBEAT && family != MUTATION_FAMILY && l.name == names(family)
      else false
    }

    predicate BoundMetadata(l: Lease) {
      && l.uid != "" && !l.terminating && l.finalizers == []
      && l.owners == (if l.Purpose() == HEARTBEAT then [Owner("v1", "Node", nodeName, nodeUID)] else [])
      && Agrees(l.annotations, ExpectedAnnotations(l))
      && Agrees(l.labels, map[DEVICE_LABEL := deviceKey, FAMILY_LABEL := Lookup(l.labels, FAMILY_LABEL)])
    }

    predicate Safe(l: Lease) { CanonicalIdentity(l) && BoundMetadata(l) && l.resourceVersion != "" }

    predicate AllSafe(listed: seq<Lease>) {
      forall i :: 0 <= i < |listed| && Ours(listed[i]) ==> Safe(listed[i])
    }

    function Candidates(listed: seq<Lease>): (cs: seq<Lease>)
      ensures forall l :: l in cs <==> l in listed && Ours(l)
    {
      if listed == [] then []
      else Candidates(listed[..|listed| - 1]) + if Ours(listed[|listed| - 1]) then [listed[|listed| - 1]] else []
    }
  }

  // ---- Deletion order ------------------------------------------------------

  predicate Precedes(a: Lease, b: Lease) {
    if a.Mutation() != b.Mutation() then b.Mutation() else !Text.Below(b.SortKey(), a.SortKey())
  }

  lemma PrecedesTotal(a: Lease, b: Lease)
    ensures Precedes(a, b) || Precedes(b, a)
  {
    if Text.Below(a.SortKey(), b.SortKey()) { Text.BelowAsymmetric(a.SortKey(), b.SortKey()); }
  }

  lemma PrecedesTransitive(a: Lease, b: Lease, c: Lease)
    requires Precedes(a, b) && Precedes(b, c)
    ensures Precedes(a, c)
  {
    var x, y, z := a.SortKey(), b.SortKey(), c.SortKey();
    if a.Mutation() == b.Mutation() == c.Mutation() && Text.Below(z, x) {
      Text.BelowTotal(x, y);
      if Text.Below(x, y) { Text.BelowTransitive(z, x, y); }
    }
  }

  lemma PrecedesOrders()
    ensures Sorting.TotalPreorder(Precedes)
  {
    forall a, b: Lease ensures Precedes(a, b) || Precedes(b, a) { PrecedesTotal(a, b); }
    forall a, b, c: Lease | Precedes(a, b) && Precedes(b, c) ensures Precedes(a, c) { PrecedesTransitive(a, b, c); }
  }

  /** The order in which the candidates are deleted. */
  function DeletionOrder(cs: seq<Lease>): (r: seq<Lease>)
    ensures |r| == |cs|
  {
    Sorting.Sort(Precedes, cs)
  }

  /** The order is a permutation in which, once a mutation Lease is next, only
      mutation Leases remain. */
  lemma MutationLeasesLast(cs: seq<Lease>)
    ensures multiset(DeletionOrder(cs)) == multiset(cs)
    ensures forall n, k :: 0 <= n < k < |cs| && DeletionOrder(cs)[n].Mutation() ==> DeletionOrder(cs)[k].Mutation()
  {
    PrecedesOrders();
    Sorting.SortCorrect(Precedes, cs);
    var order := DeletionOrder(cs);
    forall n, k | 0 <= n < k < |cs| && order[n].Mutation() ensures order[k].Mutation() {
      assert Precedes(order[n], order[k]);
    }
  }

  /** The stronger reading of "mutation last": nothing follows a mutation Lease. */
  predicate FenceLast(order: seq<Lease>) {
    forall n :: 0 <= n < |order| - 1 ==> !order[n].Mutation()
  }

  predicate AtMostOneMutation(cs: seq<Lease>) {
    forall i, j :: 0 <= i < j < |cs| ==> !(cs[i].Mutation() && cs[j].Mutation())
  }

  function MutationWeight(l: Lease): nat { if l.Mutation() then 1 else 0 }

  lemma {:induction false} NoMutationByCount(cs: seq<Lease>)
    ensures Counting.Total(MutationWeight, cs) == 0 <==> forall i :: 0 <= i < |cs| ==> !cs[i].Mutation()
  {
    if cs != [] { NoMutationByCount(cs[..|cs| - 1]); }
  }

  lemma {:induction false} AtMostOneByCount(cs: seq<Lease>)
    ensures AtMostOneMutation(cs) <==> Counting.Total(MutationWeight, cs) <= 1
  {
    if cs != [] {
      var init := cs[..|cs| - 1];
      AtMostOneByCount(init);
      NoMutationByCount(init);
      if cs[|cs| - 1].Mutation() {
        assert AtMostOneMutation(cs) <==> forall i :: 0 <= i < |init| ==> !cs[i].Mutation();
      } else {
        assert AtMostOneMutation(cs) <==> AtMostOneMutation(init);
      }
    }
  }

  /** No mutation Lease is deleted while another candidate remains exactly when
      the candidates hold at most one. */
  lemma FenceLastExactly(cs: seq<Lease>)
    ensures FenceLast(DeletionOrder(cs)) <==> AtMostOneMutation(cs)
  {
    var order := DeletionOrder(cs);
    MutationLeasesLast(cs);
    Counting.TotalPermutes(MutationWeight, order, cs);
    AtMostOneByCount(order);
    AtMostOneByCount(cs);
    if AtMostOneMutation(order) {
      forall n | 0 <= n < |order| - 1 ensures !order[n].Mutation() {
        var last := order[|order| - 1];
        assert !(order[n].Mutation() && last.Mutation());
      }
    }
  }

  /** Every binding has a mutation Lease that validates in every namespace. */
  lemma FenceInAnyNamespace(b: Binding, ns: string) returns (l: Lease)
    ensures b.Safe(l) && l.Mutation() && l.ns == ns && b.Ours(l)
  {
    var draft := Lease(ns, b.names(MUTATION_FAMILY), "uid", "1",
                       map[LEASE_PURPOSE := MUTATION, WORKER_USERNAME := b.networkWorker],
                       map[DEVICE_LABEL := b.deviceKey, FAMILY_LABEL := MUTATION_FAMILY], [], false, []);
    l := draft.(annotations := b.ExpectedAnnotations(draft));
  }

  /** So one device can have two of them, and then one is deleted before the other. */
  lemma TwoFencesExample(b: Binding, ns: string, former: string) returns (cs: seq<Lease>)
    requires ns != former
    ensures |cs| == 2 && b.AllSafe(cs) && b.Ours(cs[0]) && b.Ours(cs[1]) && cs[0].ns == ns && cs[1].ns == former
    ensures !FenceLast(DeletionOrder(cs))
  {
    var l := FenceInAnyNamespace(b, ns);
    var m := FenceInAnyNamespace(b, former);
    cs := [l, m];
    FenceLastExactly(cs);
  }

  // ---- The cleanup ---------------------------------------------------------

  function Members(ls: seq<Lease>): set<Lease> { set l | l in ls }

  /** A list call's answer: every live object, once. */
  ghost predicate Lists(listed: seq<Lease>, live: set<Lease>) {
    Members(listed) == live && forall i, j :: 0 <= i < j < |listed| ==> listed[i] != listed[j]
  }

  datatype CleanupError = NodeChanged | ListFailed | NotSafe(name: string) | DeleteFailed(name: string)

  class LeaseStore {
    var live: set<Lease>

    /** A delete with UID and resourceVersion preconditions: it removes exactly
        the object that was read, or fails. */
    method Delete(l: Lease, available: bool) returns (ok: bool)
      modifies this
      ensures live == (if ok then old(live) - {l} else old(live))
      ensures available && l in old(live) ==> ok
    {
      if !available { return false; }
      if l in live { live := live - {l}; return true; }
      ok := forall o :: o in live ==> o.ns != l.ns || o.name != l.name;
    }

    method SelectCandidates(b: Binding, listed: seq<Lease>) returns (r: Result<seq<Lease>, CleanupError>)
      ensures r.Ok? <==> b.AllSafe(listed)
      ensures r.Ok? ==> r.value == b.Candidates(listed)
      ensures r.Err? ==> r.error.NotSafe?
    {
      var candidates: seq<Lease> := [];
      for i := 0 to |listed|
        invariant candidates == b.Candidates(listed[..i])
        invariant b.AllSafe(listed[..i])
      {
        assert listed[..i + 1][..i] == listed[..i] && listed[..i + 1][i] == listed[i];
        if !b.Ours(listed[i]) { continue; }
        if !b.CanonicalIdentity(listed[i]) || !b.BoundMetadata(listed[i]) || listed[i].resourceVersion == "" {
          return Err(NotSafe(listed[i].name));
        }
        candidates := candidates + [listed[i]];
      }
      assert listed[..|listed|] == listed;
      return Ok(candidates);
    }

    /** Nothing is deleted unless the whole listed set validated; otherwise a
        prefix of the deletion order is, all of it on success. `up` says which
        delete calls the API server serves. */
    method CleanupManagedWorkerLeases(b: Binding, nodeMatches: bool, listed: Option<seq<Lease>>, up: seq<bool>)
      returns (r: Result<(), CleanupError>, ghost done: nat)
      requires listed.Some? ==> Lists(listed.value, live)
      modifies this
      ensures !nodeMatches || listed.None? || !b.AllSafe(listed.value) ==> r.Err? && live == old(live)
      ensures nodeMatches && listed.Some? && b.AllSafe(listed.value) ==>
        var order := DeletionOrder(b.Candidates(listed.value));
        && done <= |order|
        && live == old(live) - Members(order[..done])
        && (r.Ok? <==> done == |order|)
    {
      done := 0;
      if !nodeMatches { return Err(NodeChanged), 0; }
      if listed.None? { return Err(ListFailed), 0; }
      var selected := SelectCandidates(b, listed.value);
      if selected.Err? { return Err(selected.error), 0; }
      var order := DeletionOrder(selected.value);
      for i := 0 to |order|
        invariant live == old(live) - Members(order[..i])
      {
        assert order[..i + 1] == order[..i] + [order[i]];
        var ok := Delete(order[i], i < |up| && up[i]);
        if !ok { return Err(DeleteFailed(order[i].name)), i; }
      }
      return Ok(()), |order|;
    }
  }
}
