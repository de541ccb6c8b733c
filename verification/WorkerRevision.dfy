/** The two-phase rollout of a managed worker: status is fenced to the new
    revision before the Deployment's template changes, and ready evidence is
    recorded only for the sole Pod of the exact revision. */
module WorkerRevision {
  import opened Wrappers

  /** status.workerRevision; empty strings and None are absent fields. */
  datatype Evidence = Evidence(
    desired: string, observed: string, deploymentUID: string, generation: int,
    podUID: string, podStart: Option<int>, readyHeartbeat: Option<int>)
  {
    predicate Ready() { readyHeartbeat.Some? }
  }

  // ---- Observation ---------------------------------------------------------

  /** The Deployment as read back: `stamped` is its revision annotation and
      `recomputed` the digest of its template. */
  datatype Live = Live(
    uid: string, generation: int, controlled: bool, stamped: string, recomputed: string, complete: bool)

  /** `owned` is None when the ownership read failed. */
  datatype Pod = Pod(
    uid: string, owned: Option<bool>, terminating: bool, start: Option<int>, stamped: string, ready: bool)

  datatype Heartbeat = Heartbeat(managedWorkerReady: bool, statusTrue: bool, readyReason: bool, at: Option<int>)

  datatype Node = Node(uid: string, observed: string, conditions: seq<Heartbeat>)

  predicate CarriesRevision(d: Live, desired: string) {
    && desired != "" && d.uid != "" && d.generation >= 1 && d.controlled
    && d.stamped == desired && d.recomputed == desired
  }

  predicate SoleReadyPod(pods: seq<Pod>, i: nat, desired: string) {
    && i < |pods|
    && (forall k :: 0 <= k < |pods| ==> pods[k].owned == Some(k == i))
    && !pods[i].terminating && pods[i].uid != "" && pods[i].start.Some?
    && pods[i].stamped == desired && pods[i].ready
  }

  /** The first managed-worker condition decides. */
  predicate HeartbeatProves(conditions: seq<Heartbeat>, start: int, at: int) {
    exists c :: 0 <= c < |conditions|
      && (forall k :: 0 <= k < c ==> !conditions[k].managedWorkerReady)
      && conditions[c].managedWorkerReady && conditions[c].statusTrue && conditions[c].readyReason
      && conditions[c].at == Some(at) && start <= at
  }

  /** A sole, non-terminating Pod built from the revision, whose worker has
      reported that revision at or after the Pod's start. */
  ghost predicate ReadyProof(
    d: Live, desired: string, nodeUID: Option<string>, node: Option<Node>, pods: seq<Pod>, e: Evidence)
  {
    && CarriesRevision(d, desired) && d.complete
    && nodeUID.Some? && node.Some? && node.value.uid == nodeUID.value && node.value.observed == desired
    && e.Ready() && e.desired == e.observed == desired && e.deploymentUID == d.uid && e.generation == d.generation
    && exists i: nat :: SoleReadyPod(pods, i, desired) && pods[i].uid == e.podUID && pods[i].start == e.podStart
         && HeartbeatProves(node.value.conditions, pods[i].start.value, e.readyHeartbeat.value)
  }

  predicate Names(e: Evidence, d: Live, desired: string) {
    CarriesRevision(d, desired) && e.desired == desired && e.deploymentUID == d.uid
  }

  /** What an observation returns from these reads. */
  ghost predicate ObservationOf(
    d: Live, desired: string, nodeUID: Option<string>, node: Option<Node>, pods: seq<Pod>, r: Option<Evidence>)
  {
    && (r.Some? ==> Names(r.value, d, desired))
    && (r.Some? && r.value.Ready() ==> ReadyProof(d, desired, nodeUID, node, pods, r.value))
  }

  /** The Pod loop: at most one owned Pod, none terminating, no failed read. */
  method FindSolePod(pods: seq<Pod>) returns (r: Result<Option<nat>, ()>)
    ensures r.Ok? && r.value.Some? ==>
      r.value.value < |pods| && !pods[r.value.value].terminating
      && forall k :: 0 <= k < |pods| ==> pods[k].owned == Some(k == r.value.value)
    ensures forall i: nat, desired :: SoleReadyPod(pods, i, desired) ==> r == Ok(Some(i))
  {
    var found: Option<nat> := None;
    for i := 0 to |pods|
      invariant found.Some? ==> found.value < i && !pods[found.value].terminating
      invariant forall k :: 0 <= k < i ==> pods[k].owned == Some(found == Some(k))
    {
      if pods[i].owned.None? { return Err(()); }
      if !pods[i].owned.value { continue; }
      if pods[i].terminating { return Ok(None); }
      if found.Some? {
        assert pods[found.value].owned == Some(true) && pods[i].owned == Some(true);
        return Ok(None);
      }
      found := Some(i);
    }
    return Ok(found);
  }

  method FindHeartbeat(conditions: seq<Heartbeat>, start: int, reported: bool) returns (at: Option<int>)
    ensures at.Some? <==> reported && exists t :: HeartbeatProves(conditions, start, t)
    ensures at.Some? ==> HeartbeatProves(conditions, start, at.value)
  {
    for i := 0 to |conditions|
      invariant forall k :: 0 <= k < i ==> !conditions[k].managedWorkerReady
    {
      var c := conditions[i];
      if !c.managedWorkerReady { continue; }
      if !c.statusTrue || !c.readyReason || !reported || c.at.None? || c.at.value < start { return None; }
      assert HeartbeatProves(conditions, start, c.at.value);
      return c.at;
    }
    return None;
  }

  /** Evidence is ready exactly when the proof exists, and then records it. */
  method ObserveManagedWorkerRevision(
    desired: string, current: Result<Live, ()>, nodeUID: Option<string>, node: Result<Option<Node>, ()>,
    pods: Result<seq<Pod>, ()>)
    returns (r: Result<Option<Evidence>, ()>)
    ensures r.Ok? && r.value.Some? && r.value.value.Ready() ==> current.Ok? && node.Ok? && pods.Ok?
    ensures r.Ok? && r.value.Some? ==> current.Ok?
    ensures r.Ok? && current.Ok? && node.Ok? && pods.Ok? ==>
      ObservationOf(current.value, desired, nodeUID, node.value, pods.value, r.value)
    ensures r.Ok? && r.value.Some? ==> Names(r.value.value, current.value, desired)
    ensures
      (current.Ok? && node.Ok? && pods.Ok?
       && exists e :: ReadyProof(current.value, desired, nodeUID, node.value, pods.value, e)) ==>
      r.Ok? && r.value.Some? && r.value.value.Ready()
  {
    if desired == "" { return Ok(None); }
    if current.Err? { return Err(()); }
    var d := current.value;
    if d.uid == "" || d.generation < 1 || !d.controlled || d.stamped != desired || d.recomputed != desired {
      return Ok(None);
    }
    var status := Evidence(desired, "", d.uid, d.generation, "", None, None);
    if nodeUID.None? { return Ok(Some(status)); }
    if node.Err? { return Err(()); }
    if node.value.None? || node.value.value.uid != nodeUID.value { return Ok(Some(status)); }
    status := status.(observed := node.value.value.observed);
    if !d.complete { return Ok(Some(status)); }
    if pods.Err? { return Err(()); }
    var sole := FindSolePod(pods.value);
    if sole.Err? { return Err(()); }
    if sole.value.None? { return Ok(Some(status)); }
    var i := sole.value.value;
    var pod := pods.value[i];
    if pod.uid == "" || pod.start.None? || pod.stamped != desired || !pod.ready { return Ok(Some(status)); }
    assert SoleReadyPod(pods.value, i, desired);
    status := status.(podUID := pod.uid, podStart := pod.start);
    var at := FindHeartbeat(node.value.value.conditions, pod.start.value, status.observed == desired);
    return Ok(Some(status.(readyHeartbeat := at)));
  }

  // ---- The rollout protocol ------------------------------------------------

  /** What the current pass of the device does next, with what it has read. */
  datatype Pass =
    | Idle
    | Fencing(desired: string) | Applying(desired: string, read: Option<Live>)
    | ReadingDeployment(desired: string) | ReadingNode(desired: string, live: Live)
    | ReadingPods(desired: string, live: Live, node: Option<Node>)
    | Recording(evidence: Option<Evidence>)

  /** `nodeUID` is the bound Node; `usedUIDs` are the UIDs ever given to a Deployment. */
  datatype Cluster = Cluster(
    deployment: Option<Live>, node: Option<Node>, pods: seq<Pod>, nodeUID: Option<string>,
    status: Option<Evidence>, usedUIDs: set<string>, pass: Pass)

  predicate NeedsPreFence(read: Option<Live>, status: Option<Evidence>, desired: string) {
    && read.Some? && read.value.uid != "" && desired != "" && read.value.stamped != desired
    && (status.None? || status.value.desired != desired)
  }

  /** A pass reads the Deployment, then fences the status or writes the template,
      and after a template write observes and records. Anyone may delete the
      Deployment, and the cluster moves Pods, Node and progress, at any time. */
  datatype Action =
    | BeginPass(desired: string) | Fence | WriteTemplate(newUID: string)
    | ReadDeployment | ReadNode | ReadPods(evidence: Option<Evidence>) | Record | Abandon | ClearStatus
    | DeleteDeployment | Progress(complete: bool) | WorkersChange(node: Option<Node>, pods: seq<Pod>)

  ghost predicate Enabled(c: Cluster, a: Action) {
    match a
    case BeginPass(desired) => c.pass == Idle && desired != ""
    case Fence => c.pass.Fencing?
    case WriteTemplate(newUID) => c.pass.Applying? && newUID != "" && newUID !in c.usedUIDs
    case ReadDeployment => c.pass.ReadingDeployment?
    case ReadNode => c.pass.ReadingNode?
    case ReadPods(evidence) =>
      c.pass.ReadingPods?
      && ObservationOf(c.pass.live, c.pass.desired, c.nodeUID, c.pass.node, c.pods, evidence)
    case Record => c.pass.Recording?
    case ClearStatus => c.pass == Idle
    case Abandon | DeleteDeployment | Progress(_) | WorkersChange(_, _) => true
  }

  function Began(c: Cluster, desired: string): Cluster {
    c.(pass := if NeedsPreFence(c.deployment, c.status, desired) then Fencing(desired)
               else Applying(desired, c.deployment))
  }

  function Fenced(c: Cluster, desired: string): Cluster {
    c.(status := Some(Evidence(desired, "", "", 0, "", None, None)), pass := Idle)
  }

  function Restamped(d: Live, desired: string): Live {
    if d.stamped == desired then d.(recomputed := desired)
    else d.(stamped := desired, recomputed := desired, generation := d.generation + 1, complete := false)
  }

  /** The write succeeds only on the object that was read. */
  function Written(c: Cluster, desired: string, read: Option<Live>, newUID: string): Cluster {
    if c.deployment != read then c.(pass := Idle)
    else if read.None? then
      c.(deployment := Some(Live(newUID, 1, true, desired, desired, false)), usedUIDs := c.usedUIDs + {newUID},
         pass := ReadingDeployment(desired))
    else c.(deployment := Some(Restamped(read.value, desired)), pass := ReadingDeployment(desired))
  }

  function Apply(c: Cluster, a: Action): Cluster
    requires Enabled(c, a)
  {
    match a
    case BeginPass(desired) => Began(c, desired)
    case Fence => Fenced(c, c.pass.desired)
    case WriteTemplate(newUID) => Written(c, c.pass.desired, c.pass.read, newUID)
    case ReadDeployment =>
      c.(pass := if c.deployment.None? then Idle else ReadingNode(c.pass.desired, c.deployment.value))
    case ReadNode => c.(pass := ReadingPods(c.pass.desired, c.pass.live, c.node))
    case ReadPods(evidence) => c.(pass := Recording(evidence))
    case Record => c.(status := c.pass.evidence, pass := Idle)
    case Abandon => c.(pass := Idle)
    case ClearStatus => c.(status := None)
    case DeleteDeployment => c.(deployment := None)
    case Progress(complete) =>
      if c.deployment.None? then c else c.(deployment := Some(c.deployment.value.(complete := complete)))
    case WorkersChange(node, pods) => c.(node := node, pods := pods)
  }

  /** The device status and Deployment one pass works on. */
  class ManagedWorker {
    var deployment: Option<Live>
    var status: Option<Evidence>

    /** An undisturbed pass up to its write: the status is fenced and the template
        left alone, or the template is created or updated and the status left alone. */
    method ReconcilePass(desired: string, newUID: string, ghost before: Cluster) returns (fenced: bool, ghost after: Cluster)
      requires before.deployment == deployment && before.status == status && desired != ""
      modifies this
      ensures fenced == NeedsPreFence(before.deployment, before.status, desired)
      ensures
        var began := Began(before, desired);
        after == if fenced then Fenced(began, desired) else Written(began, desired, before.deployment, newUID)
      ensures deployment == after.deployment && status == after.status
      ensures fenced ==> deployment == before.deployment
      ensures !fenced ==> status == before.status && deployment.Some? && deployment.value.stamped == desired
    {
      var began := Began(before, desired);
      if deployment.Some? && deployment.value.uid != "" && deployment.value.stamped != desired
         && (status.None? || status.value.desired != desired) {
        status := Some(Evidence(desired, "", "", 0, "", None, None));
        return true, Fenced(began, desired);
      }
      if deployment.None? {
        deployment := Some(Live(newUID, 1, true, desired, desired, false));
      } else {
        deployment := Some(Restamped(deployment.value, desired));
      }
      return false, Written(began, desired, before.deployment, newUID);
    }
  }

  ghost predicate Runs(c: Cluster, actions: seq<Action>)
    decreases |actions|, 0
  {
    actions == [] || (Runs(c, Init(actions)) && Enabled(End(c, Init(actions)), Last(actions)))
  }

  ghost function End(c: Cluster, actions: seq<Action>): Cluster
    requires Runs(c, actions)
    decreases |actions|, 1
  {
    if actions == [] then c else Apply(End(c, Init(actions)), Last(actions))
  }

  function Init(actions: seq<Action>): seq<Action>
    requires actions != []
  {
    actions[..|actions| - 1]
  }

  function Last(actions: seq<Action>): Action
    requires actions != []
  {
    actions[|actions| - 1]
  }

  predicate Start(c: Cluster) { c.deployment.None? && c.status.None? && c.usedUIDs == {} && c.pass == Idle }

  // ---- The fence -----------------------------------------------------------

  /** If the Deployment with this UID still exists it carries this revision. */
  predicate StillCarries(c: Cluster, uid: string, revision: string) {
    && uid in c.usedUIDs
    && (c.deployment.Some? && c.deployment.value.uid == uid ==> c.deployment.value.stamped == revision)
  }

  predicate PassOK(c: Cluster) {
    match c.pass
    case Applying(desired, read) => desired != "" && !NeedsPreFence(read, c.status, desired)
    case ReadingNode(_, live) => StillCarries(c, live.uid, live.stamped)
    case ReadingPods(_, live, _) => StillCarries(c, live.uid, live.stamped)
    case Recording(evidence) => evidence.Some? ==> StillCarries(c, evidence.value.deploymentUID, evidence.value.desired)
    case _ => true
  }

  predicate Inv(c: Cluster) {
    && (c.deployment.Some? ==> c.deployment.value.uid != "" && c.deployment.value.uid in c.usedUIDs)
    && (c.status.Some? && c.status.value.Ready() ==>
          StillCarries(c, c.status.value.deploymentUID, c.status.value.desired))
    && PassOK(c)
  }

  lemma StepKeepsInv(c: Cluster, a: Action)
    requires Inv(c) && Enabled(c, a)
    ensures Inv(Apply(c, a))
  {
  }

  lemma {:induction false} RunKeepsInv(c: Cluster, actions: seq<Action>)
    requires Inv(c) && Runs(c, actions)
    ensures Inv(End(c, actions))
  {
    if actions != [] {
      RunKeepsInv(c, Init(actions));
      StepKeepsInv(End(c, Init(actions)), Last(actions));
    }
  }

  /** In every run a step that moves an existing Deployment to revision r starts in
      a state whose status already desires r and holds no ready evidence for that
      Deployment. */
  lemma TemplateMovesOnlyWhenFenced(start: Cluster, actions: seq<Action>, a: Action)
    requires Start(start) && Runs(start, actions) && Enabled(End(start, actions), a)
    ensures
      var c, c' := End(start, actions), Apply(End(start, actions), a);
      c.deployment.Some? && c'.deployment.Some? && c.deployment.value.uid == c'.deployment.value.uid
      && c'.deployment.value.stamped != c.deployment.value.stamped ==>
        && c.status.Some? && c.status.value.desired == c'.deployment.value.stamped
        && !(c.status.value.Ready() && c.status.value.deploymentUID == c.deployment.value.uid)
  {
    RunKeepsInv(start, actions);
  }

  /** At no point does ready evidence name a Deployment of another revision. */
  lemma ReadyEvidenceMatchesDeployment(start: Cluster, actions: seq<Action>)
    requires Start(start) && Runs(start, actions)
    ensures
      var c := End(start, actions);
      c.status.Some? && c.status.value.Ready() && c.deployment.Some?
      && c.deployment.value.uid == c.status.value.deploymentUID ==>
        c.deployment.value.stamped == c.status.value.desired
  {
    RunKeepsInv(start, actions);
  }

  // ---- Where recorded evidence comes from ----------------------------------

  /** After the first i actions of the run. */
  ghost function At(start: Cluster, actions: seq<Action>, i: nat): Cluster
    requires Runs(start, actions) && i <= |actions|
    ensures i == |actions| ==> At(start, actions, i) == End(start, actions)
    decreases |actions|
  {
    if i == |actions| then End(start, actions) else At(start, Init(actions), i)
  }

  ghost predicate SawDeployment(start: Cluster, actions: seq<Action>, live: Live)
    requires Runs(start, actions)
  {
    exists i: nat :: i <= |actions| && At(start, actions, i).deployment == Some(live)
  }

  ghost predicate SawNode(start: Cluster, actions: seq<Action>, live: Live, node: Option<Node>)
    requires Runs(start, actions)
  {
    exists i: nat, j: nat :: i <= j <= |actions|
      && At(start, actions, i).deployment == Some(live) && At(start, actions, j).node == node
  }

  /** The Deployment, the Node and the Pods were in these states, in this order. */
  ghost predicate SawPods(start: Cluster, actions: seq<Action>, live: Live, node: Option<Node>, pods: seq<Pod>)
    requires Runs(start, actions)
  {
    exists i: nat, j: nat, k: nat :: i <= j <= k <= |actions|
      && At(start, actions, i).deployment == Some(live) && At(start, actions, j).node == node
      && At(start, actions, k).pods == pods
  }

  ghost predicate ProvenBy(
    start: Cluster, actions: seq<Action>, e: Evidence, live: Live, node: Option<Node>, pods: seq<Pod>)
    requires Runs(start, actions)
  {
    SawPods(start, actions, live, node, pods) && ReadyProof(live, e.desired, start.nodeUID, node, pods, e)
  }

  ghost predicate Proven(start: Cluster, actions: seq<Action>, e: Evidence)
    requires Runs(start, actions)
  {
    exists live, node, pods :: ProvenBy(start, actions, e, live, node, pods)
  }

  ghost predicate EvidenceWitnessed(start: Cluster, actions: seq<Action>, evidence: Option<Evidence>)
    requires Runs(start, actions)
  {
    evidence.Some? && evidence.value.Ready() ==> Proven(start, actions, evidence.value)
  }

  ghost predicate PassWitnessed(start: Cluster, actions: seq<Action>, pass: Pass)
    requires Runs(start, actions)
  {
    match pass
    case ReadingNode(_, live) => SawDeployment(start, actions, live)
    case ReadingPods(_, live, node) => SawNode(start, actions, live, node)
    case Recording(evidence) => EvidenceWitnessed(start, actions, evidence)
    case _ => true
  }

  lemma SawDeploymentLater(start: Cluster, actions: seq<Action>, live: Live)
    requires actions != [] && Runs(start, actions) && SawDeployment(start, Init(actions), live)
    ensures SawDeployment(start, actions, live)
  {
    var i: nat :| i <= |Init(actions)| && At(start, Init(actions), i).deployment == Some(live);
    assert At(start, actions, i) == At(start, Init(actions), i);
  }

  lemma SawNodeLater(start: Cluster, actions: seq<Action>, live: Live, node: Option<Node>)
    requires actions != [] && Runs(start, actions) && SawNode(start, Init(actions), live, node)
    ensures SawNode(start, actions, live, node)
  {
    var i: nat, j: nat :| i <= j <= |Init(actions)|
      && At(start, Init(actions), i).deployment == Some(live) && At(start, Init(actions), j).node == node;
    assert At(start, actions, i) == At(start, Init(actions), i);
    assert At(start, actions, j) == At(start, Init(actions), j);
  }

  lemma SawPodsLater(start: Cluster, actions: seq<Action>, live: Live, node: Option<Node>, pods: seq<Pod>)
    requires actions != [] && Runs(start, actions) && SawPods(start, Init(actions), live, node, pods)
    ensures SawPods(start, actions, live, node, pods)
  {
    var init := Init(actions);
    var i: nat, j: nat, k: nat :| i <= j <= k <= |init|
      && At(start, init, i).deployment == Some(live) && At(start, init, j).node == node
      && At(start, init, k).pods == pods;
    assert At(start, actions, i) == At(start, init, i) && At(start, actions, j) == At(start, init, j);
    assert At(start, actions, k) == At(start, init, k);
  }

  lemma EvidenceLater(start: Cluster, actions: seq<Action>, evidence: Option<Evidence>)
    requires actions != [] && Runs(start, actions) && EvidenceWitnessed(start, Init(actions), evidence)
    ensures EvidenceWitnessed(start, actions, evidence)
  {
    if evidence.Some? && evidence.value.Ready() {
      var live, node, pods :| ProvenBy(start, Init(actions), evidence.value, live, node, pods);
      SawPodsLater(start, actions, live, node, pods);
      assert ProvenBy(start, actions, evidence.value, live, node, pods);
    }
  }

  lemma PassLater(start: Cluster, actions: seq<Action>, pass: Pass)
    requires actions != [] && Runs(start, actions) && PassWitnessed(start, Init(actions), pass)
    ensures PassWitnessed(start, actions, pass)
  {
    match pass
    case ReadingNode(_, live) => SawDeploymentLater(start, actions, live);
    case ReadingPods(_, live, node) => SawNodeLater(start, actions, live, node);
    case Recording(evidence) => EvidenceLater(start, actions, evidence);
    case _ =>
  }

  lemma DeploymentReadWitnessed(start: Cluster, actions: seq<Action>)
    requires actions != [] && Runs(start, actions) && Last(actions) == ReadDeployment
    ensures PassWitnessed(start, actions, End(start, actions).pass)
  {
    var c := End(start, Init(actions));
    assert At(start, actions, |actions|).deployment == c.deployment;
  }

  lemma NodeReadWitnessed(start: Cluster, actions: seq<Action>)
    requires actions != [] && Runs(start, actions) && Last(actions) == ReadNode
    requires SawDeployment(start, Init(actions), End(start, Init(actions)).pass.live)
    ensures SawNode(start, actions, End(start, actions).pass.live, End(start, actions).pass.node)
  {
    var live := End(start, Init(actions)).pass.live;
    SawDeploymentLater(start, actions, live);
    var i: nat :| i <= |actions| && At(start, actions, i).deployment == Some(live);
    assert At(start, actions, |actions|).node == End(start, actions).pass.node;
  }

  lemma PodsReadWitnessed(start: Cluster, actions: seq<Action>, evidence: Option<Evidence>)
    requires actions != [] && Runs(start, actions) && Last(actions) == ReadPods(evidence)
    requires
      var c := End(start, Init(actions));
      SawNode(start, Init(actions), c.pass.live, c.pass.node) && c.nodeUID == start.nodeUID
    ensures EvidenceWitnessed(start, actions, evidence)
  {
    var c := End(start, Init(actions));
    var live, node := c.pass.live, c.pass.node;
    SawNodeLater(start, actions, live, node);
    var i: nat, j: nat :| i <= j <= |actions|
      && At(start, actions, i).deployment == Some(live) && At(start, actions, j).node == node;
    assert At(start, actions, |actions|).pods == c.pods;
    assert SawPods(start, actions, live, node, c.pods);
    if evidence.Some? && evidence.value.Ready() {
      assert ProvenBy(start, actions, evidence.value, live, node, c.pods);
    }
  }

  lemma StepWitnessed(start: Cluster, actions: seq<Action>)
    requires actions != [] && Runs(start, actions) && End(start, Init(actions)).nodeUID == start.nodeUID
    requires PassWitnessed(start, Init(actions), End(start, Init(actions)).pass)
    requires EvidenceWitnessed(start, Init(actions), End(start, Init(actions)).status)
    ensures PassWitnessed(start, actions, End(start, actions).pass)
    ensures EvidenceWitnessed(start, actions, End(start, actions).status)
  {
    var c := End(start, Init(actions));
    PassLater(start, actions, c.pass);
    EvidenceLater(start, actions, c.status);
    match Last(actions)
    case ReadDeployment => DeploymentReadWitnessed(start, actions);
    case ReadNode => NodeReadWitnessed(start, actions);
    case ReadPods(evidence) => PodsReadWitnessed(start, actions, evidence);
    case _ =>
  }

  lemma {:induction false} RunWitnessed(start: Cluster, actions: seq<Action>)
    requires Start(start) && Runs(start, actions)
    ensures End(start, actions).nodeUID == start.nodeUID
    ensures PassWitnessed(start, actions, End(start, actions).pass)
    ensures EvidenceWitnessed(start, actions, End(start, actions).status)
  {
    if actions != [] {
      RunWitnessed(start, Init(actions));
      StepWitnessed(start, actions);
    }
  }

  /** Recorded ready evidence was proven in the run: the cluster held, in this
      order, the Deployment it names with its revision, a Node whose worker had
      reported that revision, and as the only owned Pod the one it names, started
      no later than the recorded heartbeat. */
  lemma RecordedEvidenceWasProven(start: Cluster, actions: seq<Action>)
    requires Start(start) && Runs(start, actions)
    requires End(start, actions).status.Some? && End(start, actions).status.value.Ready()
    ensures Proven(start, actions, End(start, actions).status.value)
  {
    RunWitnessed(start, actions);
  }

  // ---- Progress ------------------------------------------------------------

  lemma Extend(c: Cluster, actions: seq<Action>, a: Action)
    requires Runs(c, actions) && Enabled(End(c, actions), a)
    ensures Runs(c, actions + [a]) && End(c, actions + [a]) == Apply(End(c, actions), a)
  {
    assert Init(actions + [a]) == actions;
  }

  /** The fence delays a rollout by one pass and no more: two undisturbed passes
      bring the Deployment to the desired revision. */
  lemma SecondPassRollsOut(c: Cluster, desired: string, newUID: string) returns (actions: seq<Action>)
    requires Inv(c) && c.pass == Idle && desired != "" && newUID != "" && newUID !in c.usedUIDs
    ensures Runs(c, actions) && |actions| <= 4
    ensures End(c, actions).deployment.Some? && End(c, actions).deployment.value.stamped == desired
  {
    assert Runs(c, []) && End(c, []) == c;
    Extend(c, [], BeginPass(desired));
    actions := [] + [BeginPass(desired)];
    if NeedsPreFence(c.deployment, c.status, desired) {
      Extend(c, actions, Fence);
      Extend(c, actions + [Fence], BeginPass(desired));
      actions := actions + [Fence] + [BeginPass(desired)];
    }
    Extend(c, actions, WriteTemplate(newUID));
    actions := actions + [WriteTemplate(newUID)];
  }
}
