/** The rollout strategy of a standalone per-device Deployment while a template
    that projects the provisioning private key may still be running. */
module SignerLifecycle {
  import opened Wrappers

  const PROVISIONING_VOLUME := "gnoi-provisioning"

  /** A volume with the key lists of the Secrets it projects. */
  datatype Volume = Volume(name: string, secret: Option<seq<string>>, projected: seq<Option<seq<string>>>)

  type Template = seq<Volume>

  /** An empty item list projects every key of the Secret. */
  predicate KeysIncludePrivate(items: seq<string>) { items == [] || "ca.key" in items || "tls.key" in items }

  predicate VolumeProjects(v: Volume) {
    && v.name == PROVISIONING_VOLUME
    && ((v.secret.Some? && KeysIncludePrivate(v.secret.value))
        || exists i :: 0 <= i < |v.projected| && v.projected[i].Some? && KeysIncludePrivate(v.projected[i].value))
  }

  predicate Projects(t: Template) { exists i :: 0 <= i < |t| && VolumeProjects(t[i]) }

  /** What one reconcile of a standalone device resolved. Writes imply trust. */
  datatype Desired = Desired(trust: bool, writes: bool, otherRecreate: bool, otherVolumes: Template) {
    predicate Valid() {
      && (writes ==> trust)
      && (forall i :: 0 <= i < |otherVolumes| ==> otherVolumes[i].name != PROVISIONING_VOLUME)
    }

    function Render(): Template {
      otherVolumes +
      if !trust then []
      else [Volume(PROVISIONING_VOLUME, None,
                   [Some(["tls.crt", "ca.crt"])] + if writes then [Some(["bootstrap.crt", "ca.key"])] else [])]
    }
  }

  /** A rendered template projects the private key exactly when writes are enabled. */
  lemma RenderedProjectsExactly(d: Desired)
    requires d.Valid()
    ensures Projects(d.Render()) <==> d.writes
  {
    var t := d.Render();
    var n := |d.otherVolumes|;
    if d.trust {
      assert t[n].projected[0] == Some(["tls.crt", "ca.crt"]);
      assert "tls.crt"[0] == 't' && "ca.key"[0] == 'c' && |"tls.crt"| == 7 && |"tls.key"| == 7;
      assert "tls.crt"[4] == 'c' && "tls.key"[4] == 'k' && "ca.crt"[3] == 'c' && "ca.key"[3] == 'k';
      assert "ca.crt"[0] == 'c' && "tls.key"[0] == 't';
      assert !KeysIncludePrivate(["tls.crt", "ca.crt"]);
      if d.writes {
        assert t[n].projected[1] == Some(["bootstrap.crt", "ca.key"]);
        assert "ca.key" in ["bootstrap.crt", "ca.key"];
        assert VolumeProjects(t[n]);
      } else {
        assert |t[n].projected| == 1;
      }
    }
  }

  // ---- The Deployment and its Pods -----------------------------------------

  datatype Strategy = Recreate | RollingUpdate

  datatype RolloutStatus = RolloutStatus(
    observedGeneration: nat, updated: int, replicas: int, ready: int, available: int, unavailable: int,
    terminating: Option<int>)

  predicate ProjectsAt(templates: seq<Template>, g: nat) { 1 <= g <= |templates| && Projects(templates[g - 1]) }

  /** `templates[g - 1]` is the template of generation `g`; each Pod carries the
      generation it was built from. An empty history means no Deployment yet. */
  datatype Cluster = Cluster(
    templates: seq<Template>, strategy: Strategy, signerMounted: bool,
    desiredReplicas: int, status: RolloutStatus, pods: seq<nat>)
  {
    function Generation(): nat { |templates| }

    predicate WellFormed() {
      && status.observedGeneration <= Generation()
      && forall i :: 0 <= i < |pods| ==> 1 <= pods[i] <= Generation()
    }

    predicate TemplateProjects() { ProjectsAt(templates, Generation()) }

    predicate CompleteAt(replicas: int) {
      && Generation() > 0 && status.observedGeneration >= Generation()
      && !(status.terminating.Some? && status.terminating.value > 0)
      && status.updated == replicas && status.replicas == replicas
      && status.ready == replicas && status.available == replicas && status.unavailable == 0
    }

    predicate RolloutComplete() { CompleteAt(desiredReplicas) }

    /** What a complete rollout is taken to mean: every Pod runs the current
        template, though perhaps from a generation that only changed the strategy. */
    predicate HonestStatus() {
      CompleteAt(status.replicas) ==>
        forall i :: 0 <= i < |pods| && 1 <= pods[i] <= Generation() ==>
          templates[pods[i] - 1] == templates[|templates| - 1]
    }

    /** No running Pod has the signer, and none can be started from a template
        the Deployment controller may still be acting on. */
    predicate SignerFree() {
      && (forall i :: 0 <= i < |pods| ==> !ProjectsAt(templates, pods[i]))
      && (forall g :: status.observedGeneration <= g <= Generation() ==> !ProjectsAt(templates, g))
    }
  }

  datatype Action =
    | Reconcile(desired: Desired)
    | StartPod(generation: nat)
    | StopPod(index: nat)
    | Report(status: RolloutStatus)

  /** The Deployment controller starts Pods from its current view, which is never
      older than the generation it has reported. */
  predicate Enabled(c: Cluster, a: Action) {
    match a
    case Reconcile(desired) => desired.Valid()
    case StartPod(g) => 1 <= g <= c.Generation() && c.status.observedGeneration <= g
    case StopPod(i) => i < |c.pods|
    case Report(status) =>
      c.status.observedGeneration <= status.observedGeneration <= c.Generation()
      && c.(status := status).HonestStatus()
  }

  /** The mutate closure: the replica count is set first, and the lifecycle
      annotation outlives the projecting template until a complete rollout of a
      clean one. */
  function ReconcileStep(c: Cluster, d: Desired): Cluster {
    var single := c.(desiredReplicas := 1);
    var cleanupComplete := c.signerMounted && !d.writes && !c.TemplateProjects() && single.RolloutComplete();
    var mayBeResident := d.writes || c.TemplateProjects() || (c.signerMounted && !cleanupComplete);
    var strategy := if d.otherRecreate || mayBeResident then Recreate else RollingUpdate;
    var mounted := if mayBeResident then true else if cleanupComplete then false else c.signerMounted;
    var template := d.Render();
    var sameSpec := c.templates != [] && c.templates[|c.templates| - 1] == template
                    && c.strategy == strategy && c.desiredReplicas == 1;
    c.(templates := if sameSpec then c.templates else c.templates + [template],
       strategy := strategy, signerMounted := mounted, desiredReplicas := 1)
  }

  /** The Deployment object the closure updates in place, with the Pods beside it. */
  class DeploymentObject {
    var templates: seq<Template>
    var strategy: Strategy
    var signerMounted: bool
    var desiredReplicas: int
    const status: RolloutStatus
    const pods: seq<nat>

    function Value(): Cluster
      reads this
    {
      Cluster(templates, strategy, signerMounted, desiredReplicas, status, pods)
    }

    method MutateAppDeployment(d: Desired)
      modifies this
      ensures Value() == ReconcileStep(old(Value()), d)
    {
      var read := Value();
      desiredReplicas := 1;
      var templateProjects := read.TemplateProjects();
      var cleanupComplete := signerMounted && !d.writes && !templateProjects && Value().RolloutComplete();
      var mayBeResident := d.writes || templateProjects || (signerMounted && !cleanupComplete);
      strategy := if d.otherRecreate || mayBeResident then Recreate else RollingUpdate;
      if mayBeResident {
        signerMounted := true;
      } else if cleanupComplete {
        signerMounted := false;
      }
      var template := d.Render();
      if templates == [] || templates[|templates| - 1] != template
         || strategy != read.strategy || read.desiredReplicas != 1 {
        templates := templates + [template];
      }
    }
  }

  function Apply(c: Cluster, a: Action): Cluster
    requires Enabled(c, a)
  {
    match a
    case Reconcile(desired) => ReconcileStep(c, desired)
    case StartPod(g) => c.(pods := c.pods + [g])
    case StopPod(i) => c.(pods := c.pods[..i] + c.pods[i + 1..])
    case Report(status) => c.(status := status)
  }

  predicate Runs(c: Cluster, actions: seq<Action>)
    decreases actions
  {
    actions == [] || (Enabled(c, actions[0]) && Runs(Apply(c, actions[0]), actions[1..]))
  }

  function End(c: Cluster, actions: seq<Action>): Cluster
    requires Runs(c, actions)
    decreases actions
  {
    if actions == [] then c else End(Apply(c, actions[0]), actions[1..])
  }

  /** Without the annotation, a clean current template means no signer anywhere. */
  predicate Inv(c: Cluster) {
    && c.WellFormed() && c.HonestStatus()
    && (!c.signerMounted && !c.TemplateProjects() ==> c.SignerFree())
  }

  lemma ReconcileKeepsInv(c: Cluster, d: Desired)
    requires Inv(c) && d.Valid()
    ensures Inv(ReconcileStep(c, d))
    ensures ReconcileStep(c, d).strategy == RollingUpdate ==> ReconcileStep(c, d).SignerFree()
  {
    RenderedProjectsExactly(d);
    var c' := ReconcileStep(c, d);
    assert forall g :: 1 <= g <= c.Generation() ==> ProjectsAt(c'.templates, g) == ProjectsAt(c.templates, g);
    assert c'.templates[|c'.templates| - 1] == d.Render();
    if !d.writes && !c.TemplateProjects() && c.CompleteAt(1) {
      assert c.SignerFree();
    }
  }

  lemma StepKeepsInv(c: Cluster, a: Action)
    requires Inv(c) && Enabled(c, a)
    ensures Inv(Apply(c, a))
  {
    match a
    case Reconcile(desired) => ReconcileKeepsInv(c, desired);
    case StartPod(g) =>
    case StopPod(i) =>
    case Report(status) =>
  }

  lemma {:induction false} RunKeepsInv(c: Cluster, actions: seq<Action>)
    requires Inv(c) && Runs(c, actions)
    ensures Inv(End(c, actions))
    decreases actions
  {
    if actions != [] {
      StepKeepsInv(c, actions[0]);
      RunKeepsInv(Apply(c, actions[0]), actions[1..]);
    }
  }

  /** Whenever the controller writes RollingUpdate, no running Pod comes from a
      template that projects the private key, and none can be started from one. */
  lemma RollingUpdateOnlyWithoutSigner(c: Cluster, actions: seq<Action>, d: Desired)
    requires Inv(c) && Runs(c, actions) && d.Valid()
    ensures ReconcileStep(End(c, actions), d).strategy == RollingUpdate ==>
      ReconcileStep(End(c, actions), d).SignerFree()
  {
    RunKeepsInv(c, actions);
    ReconcileKeepsInv(End(c, actions), d);
  }

  /** A Deployment the controller creates itself starts inside the invariant. */
  lemma NewDeploymentSatisfiesInv(c: Cluster, d: Desired)
    requires c.templates == [] && c.pods == [] && c.status.observedGeneration == 0 && !c.signerMounted && d.Valid()
    ensures Inv(ReconcileStep(c, d))
  {
  }

  /** The lifecycle ends: once writes are off, a complete rollout of the clean
      template returns the Deployment to RollingUpdate and drops the annotation. */
  lemma CleanupReturnsToRollingUpdate(c: Cluster, d: Desired, done: RolloutStatus)
    requires Inv(c) && d.Valid() && !d.writes && !d.otherRecreate
    requires
      var clean := ReconcileStep(c, d).(status := done);
      clean.RolloutComplete() && done.observedGeneration == clean.Generation()
    ensures
      var settled := ReconcileStep(ReconcileStep(c, d).(status := done), d);
      settled.strategy == RollingUpdate && !settled.signerMounted
  {
  }
}
