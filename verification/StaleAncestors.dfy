/** Quiescence of a device's per-device workload: the closure of owner references
    from the Deployment through its ReplicaSets, and the Pods under it. */
module StaleAncestors {
  import opened Wrappers

  datatype OwnerRef = OwnerRef(apiVersion: string, kind: string, name: string, uid: string)

  datatype Object = Object(uid: string, owners: seq<OwnerRef>, labels: map<string, string>)

  /** The per-device Deployment as read: its UID, or None once it is gone. */
  datatype Root = Root(name: string, live: Option<string>) {
    predicate Gone() { live.None? }

    function UID(): string { if live.Some? then live.value else "" }

    function Seed(): set<string> { if UID() != "" then {UID()} else {} }

    /** The reference names the Deployment: any incarnation once it is gone. */
    predicate Names(owner: OwnerRef) {
      && owner.apiVersion == "apps/v1" && owner.kind == "Deployment" && owner.name == name
      && (Gone() || UID() == "" || owner.uid == UID())
    }

    predicate Owns(owners: seq<OwnerRef>, stale: set<string>) {
      exists i :: 0 <= i < |owners| && ((owners[i].uid != "" && owners[i].uid in stale) || Names(owners[i]))
    }
  }

  // ---- Owner chains --------------------------------------------------------

  predicate OwnedByUID(x: Object, uid: string) {
    uid != "" && exists i :: 0 <= i < |x.owners| && x.owners[i].uid == uid
  }

  /** Identified ReplicaSets, the first owned by the Deployment itself and each
      later one owned by its predecessor. */
  ghost predicate Chain(root: Root, sets: seq<Object>, path: seq<nat>) {
    && path != []
    && (forall k :: 0 <= k < |path| ==> path[k] < |sets| && sets[path[k]].uid != "")
    && root.Owns(sets[path[0]].owners, root.Seed())
    && (forall k :: 0 < k < |path| ==> OwnedByUID(sets[path[k]], sets[path[k - 1]].uid))
  }

  ghost predicate Reachable(root: Root, sets: seq<Object>, uid: string) {
    exists path :: Chain(root, sets, path) && sets[path[|path| - 1]].uid == uid
  }

  ghost predicate IsClosure(root: Root, sets: seq<Object>, stale: set<string>) {
    forall uid :: uid in stale <==> uid in root.Seed() || Reachable(root, sets, uid)
  }

  /** Everything the Deployment or an ancestor in `stale` owns is in `stale`. */
  ghost predicate Closed(root: Root, sets: seq<Object>, stale: set<string>, n: nat)
    requires n <= |sets|
  {
    forall i :: 0 <= i < n && sets[i].uid != "" && root.Owns(sets[i].owners, stale) ==> sets[i].uid in stale
  }

  ghost predicate Sound(root: Root, sets: seq<Object>, stale: set<string>) {
    && root.Seed() <= stale
    && forall uid :: uid in stale ==> uid in root.Seed() || Reachable(root, sets, uid)
  }

  lemma OwnsMonotone(root: Root, owners: seq<OwnerRef>, smaller: set<string>, larger: set<string>)
    requires root.Owns(owners, smaller) && smaller <= larger
    ensures root.Owns(owners, larger)
  {
  }

  lemma AppendToChain(root: Root, sets: seq<Object>, path: seq<nat>, i: nat)
    requires Chain(root, sets, path) && i < |sets| && sets[i].uid != ""
    requires OwnedByUID(sets[i], sets[path[|path| - 1]].uid)
    ensures Reachable(root, sets, sets[i].uid)
  {
    var longer := path + [i];
    assert longer[|path|] == i && longer[0] == path[0];
    assert forall k :: 0 <= k < |path| ==> longer[k] == path[k];
    assert Chain(root, sets, longer);
  }

  lemma ExtendChain(root: Root, sets: seq<Object>, stale: set<string>, i: nat)
    requires Sound(root, sets, stale) && i < |sets| && sets[i].uid != "" && root.Owns(sets[i].owners, stale)
    ensures Reachable(root, sets, sets[i].uid)
  {
    if root.Owns(sets[i].owners, root.Seed()) {
      assert Chain(root, sets, [i]);
    } else {
      var k :| 0 <= k < |sets[i].owners| && sets[i].owners[k].uid != "" && sets[i].owners[k].uid in stale;
      var owner := sets[i].owners[k].uid;
      assert Reachable(root, sets, owner);
      var path :| Chain(root, sets, path) && sets[path[|path| - 1]].uid == owner;
      AppendToChain(root, sets, path, i);
    }
  }

  lemma {:induction false} ClosedHoldsChains(root: Root, sets: seq<Object>, stale: set<string>, path: seq<nat>, k: nat)
    requires root.Seed() <= stale && Closed(root, sets, stale, |sets|) && Chain(root, sets, path) && k < |path|
    ensures sets[path[k]].uid in stale
  {
    if k > 0 {
      ClosedHoldsChains(root, sets, stale, path, k - 1);
      assert OwnedByUID(sets[path[k]], sets[path[k - 1]].uid);
    } else {
      OwnsMonotone(root, sets[path[0]].owners, root.Seed(), stale);
    }
  }

  lemma SoundAndClosedIsClosure(root: Root, sets: seq<Object>, stale: set<string>)
    requires Sound(root, sets, stale) && Closed(root, sets, stale, |sets|)
    ensures IsClosure(root, sets, stale)
  {
    forall uid | Reachable(root, sets, uid)
      ensures uid in stale
    {
      var path :| Chain(root, sets, path) && sets[path[|path| - 1]].uid == uid;
      ClosedHoldsChains(root, sets, stale, path, |path| - 1);
    }
  }

  function UIDs(sets: seq<Object>): set<string> { set i | 0 <= i < |sets| :: sets[i].uid }

  /** The fixpoint loop: it ends after at most one pass per ReplicaSet and yields
      exactly the Deployment and every ReplicaSet an owner chain reaches. */
  method StaleAncestorUIDs(root: Root, sets: seq<Object>) returns (stale: set<string>)
    ensures IsClosure(root, sets, stale)
  {
    stale := root.Seed();
    var added := true;
    while added
      invariant Sound(root, sets, stale)
      invariant !added ==> Closed(root, sets, stale, |sets|)
      decreases UIDs(sets) - stale, added
    {
      added := false;
      ghost var before := stale;
      for i := 0 to |sets|
        invariant Sound(root, sets, stale) && before <= stale
        invariant !added ==> stale == before && Closed(root, sets, stale, i)
        invariant added ==> UIDs(sets) - stale < UIDs(sets) - before
      {
        if sets[i].uid in stale { continue; }
        if root.Owns(sets[i].owners, stale) && sets[i].uid != "" {
          ExtendChain(root, sets, stale, i);
          assert sets[i].uid in UIDs(sets) - before;
          stale := stale + {sets[i].uid};
          assert sets[i].uid !in UIDs(sets) - stale;
          added := true;
        }
      }
    }
    SoundAndClosedIsClosure(root, sets, stale);
  }

  // ---- Stale Pods ----------------------------------------------------------

  /** The Pod carries the device's worker labels, or an owner chain ties it to the Deployment. */
  ghost predicate StalePod(root: Root, sets: seq<Object>, required: map<string, string>, pod: Object) {
    || Agrees(pod.labels, required)
    || root.Owns(pod.owners, root.Seed())
    || exists uid :: OwnedByUID(pod, uid) && Reachable(root, sets, uid)
  }

  lemma OwnedThroughClosure(root: Root, sets: seq<Object>, stale: set<string>, pod: Object)
    requires IsClosure(root, sets, stale)
    ensures root.Owns(pod.owners, stale) <==>
      root.Owns(pod.owners, root.Seed()) || exists uid :: OwnedByUID(pod, uid) && Reachable(root, sets, uid)
  {
  }

  ghost function StalePods(
    root: Root, sets: seq<Object>, required: map<string, string>, pods: seq<Object>): seq<Object>
  {
    if pods == [] then []
    else
      StalePods(root, sets, required, pods[..|pods| - 1])
      + (if StalePod(root, sets, required, pods[|pods| - 1]) then [pods[|pods| - 1]] else [])
  }

  datatype ReadError = DeploymentRead | ReplicaSetList | PodList

  /** Reports the stale Pods, in listing order, and quiescence only when there
      are none and the Deployment itself is gone. */
  method PerDevicePodsQuiesced(
    name: string, required: map<string, string>,
    deployment: Result<Option<string>, ()>, replicaSets: Result<seq<Object>, ()>, listed: Result<seq<Object>, ()>)
    returns (r: Result<(bool, seq<Object>), ReadError>)
    ensures r.Ok? <==> deployment.Ok? && replicaSets.Ok? && listed.Ok?
    ensures r.Ok? ==>
      && r.value.1 == StalePods(Root(name, deployment.value), replicaSets.value, required, listed.value)
      && (r.value.0 <==> deployment.value.None? && r.value.1 == [])
  {
    if deployment.Err? { return Err(DeploymentRead); }
    var root := Root(name, deployment.value);
    if replicaSets.Err? { return Err(ReplicaSetList); }
    var stale := StaleAncestorUIDs(root, replicaSets.value);
    if listed.Err? { return Err(PodList); }
    var pods := listed.value;
    var stalePods: seq<Object> := [];
    for i := 0 to |pods|
      invariant stalePods == StalePods(root, replicaSets.value, required, pods[..i])
    {
      OwnedThroughClosure(root, replicaSets.value, stale, pods[i]);
      assert pods[..i + 1][..i] == pods[..i];
      if Agrees(pods[i].labels, required) || root.Owns(pods[i].owners, stale) {
        stalePods := stalePods + [pods[i]];
      }
    }
    assert pods[..|pods|] == pods;
    return Ok((root.Gone() && |stalePods| == 0, stalePods));
  }

  /** The report is exact: a listed Pod is in it if and only if it is stale. */
  lemma {:induction false} StalePodsExact(
    root: Root, sets: seq<Object>, required: map<string, string>, pods: seq<Object>, pod: Object)
    ensures pod in StalePods(root, sets, required, pods) <==> pod in pods && StalePod(root, sets, required, pod)
  {
    if pods != [] {
      var last := |pods| - 1;
      StalePodsExact(root, sets, required, pods[..last], pod);
      assert pods == pods[..last] + [pods[last]];
    }
  }
}
