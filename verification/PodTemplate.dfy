/** The content address of a managed worker's PodTemplate: defaulting, the
    canonical form that is hashed, and the two fields that carry the digest. */
module PodTemplate {
  import opened Wrappers

  const REVISION_ANNOTATION := "topology.cisco.vk/worker-config-revision"
  const REVISION_ENV := "CISCO_VK_WORKER_CONFIG_REVISION"

  /** Quantities in nano-units. */
  type Resources = map<string, nat>

  datatype FieldRef = FieldRef(apiVersion: string, path: string)

  datatype EnvVar = EnvVar(name: string, value: string, fieldRef: Option<FieldRef>)

  datatype Probe = Probe(handler: string, timeout: int, period: int, success: int, failure: int)

  /** `rest` stands for the fields that defaulting leaves alone. */
  datatype Container = Container(
    image: string, pullPolicy: string, messagePath: string, messagePolicy: string, env: seq<EnvVar>,
    readiness: Option<Probe>, liveness: Option<Probe>, startup: Option<Probe>,
    limits: Resources, requests: Resources, rest: string)

  datatype Source = Source(content: string, mode: Option<int>)

  datatype Volume = Volume(
    name: string, configMap: Option<Source>, secret: Option<Source>,
    projected: Option<Source>, downwardAPI: Option<Source>, rest: string)

  datatype Ephemeral = Ephemeral(limits: Resources, requests: Resources, rest: string)

  datatype Template = Template(
    annotations: map<string, string>, restartPolicy: string, dnsPolicy: string, schedulerName: string,
    gracePeriod: Option<int>, serviceAccount: string, deprecatedServiceAccount: string,
    securityContext: Option<string>, initContainers: seq<Container>, containers: seq<Container>,
    ephemeral: seq<Ephemeral>, overhead: Resources, volumes: seq<Volume>, rest: string)

  // ---- Defaulting ----------------------------------------------------------

  function Or(s: string, fallback: string): string { if s == "" then fallback else s }

  function OrNumber(n: int, fallback: int): int { if n == 0 then fallback else n }

  const MILLI := 1_000_000

  function RoundUpMilli(q: nat): nat { (q + MILLI - 1) / MILLI * MILLI }

  function Rounded(r: Resources): Resources { map k | k in r :: RoundUpMilli(r[k]) }

  /** The index of the last `c`, or -1. */
  function LastIndex(s: string, c: char): (i: int)
    ensures -1 <= i < |s|
  {
    if s == "" then -1 else if s[|s| - 1] == c then |s| - 1 else LastIndex(s[..|s| - 1], c)
  }

  function DefaultPullPolicy(image: string): string {
    var at := LastIndex(image, '@');
    var name := if at >= 0 then image[..at] else image;
    var colon := LastIndex(name, ':');
    if colon > LastIndex(name, '/') then
      if name[colon + 1..] == "latest" then "Always" else "IfNotPresent"
    else if at < 0 then "Always"
    else "IfNotPresent"
  }

  function DefaultedEnv(e: EnvVar): EnvVar {
    if e.fieldRef.Some? && e.fieldRef.value.apiVersion == ""
    then e.(fieldRef := Some(e.fieldRef.value.(apiVersion := "v1")))
    else e
  }

  function DefaultedEnvs(es: seq<EnvVar>): seq<EnvVar> {
    seq(|es|, i requires 0 <= i < |es| => DefaultedEnv(es[i]))
  }

  function DefaultedProbe(p: Option<Probe>): Option<Probe> {
    if p.None? then None
    else Some(p.value.(timeout := OrNumber(p.value.timeout, 1), period := OrNumber(p.value.period, 10),
                       success := OrNumber(p.value.success, 1), failure := OrNumber(p.value.failure, 3)))
  }

  function DefaultedContainer(c: Container): Container {
    c.(pullPolicy := Or(c.pullPolicy, DefaultPullPolicy(c.image)),
       messagePath := Or(c.messagePath, "/dev/termination-log"),
       messagePolicy := Or(c.messagePolicy, "File"),
       env := DefaultedEnvs(c.env),
       readiness := DefaultedProbe(c.readiness), liveness := DefaultedProbe(c.liveness),
       startup := DefaultedProbe(c.startup),
       limits := Rounded(c.limits), requests := Rounded(c.requests))
  }

  function DefaultedContainers(cs: seq<Container>): seq<Container> {
    seq(|cs|, i requires 0 <= i < |cs| => DefaultedContainer(cs[i]))
  }

  function DefaultedEphemerals(es: seq<Ephemeral>): seq<Ephemeral> {
    seq(|es|, i requires 0 <= i < |es| =>
      es[i].(limits := Rounded(es[i].limits), requests := Rounded(es[i].requests)))
  }

  predicate Unset(s: Option<Source>) { s.Some? && s.value.mode.None? }

  function WithMode(s: Option<Source>): Option<Source>
    requires s.Some?
  {
    Some(s.value.(mode := Some(420)))
  }

  /** Only the first source without a mode gets one. */
  function DefaultedVolume(v: Volume): Volume {
    if Unset(v.configMap) then v.(configMap := WithMode(v.configMap))
    else if Unset(v.secret) then v.(secret := WithMode(v.secret))
    else if Unset(v.projected) then v.(projected := WithMode(v.projected))
    else if Unset(v.downwardAPI) then v.(downwardAPI := WithMode(v.downwardAPI))
    else v
  }

  function DefaultedVolumes(vs: seq<Volume>): seq<Volume> {
    seq(|vs|, i requires 0 <= i < |vs| => DefaultedVolume(vs[i]))
  }

  function Defaulted(t: Template): Template {
    var account := Or(t.serviceAccount, t.deprecatedServiceAccount);
    t.(restartPolicy := Or(t.restartPolicy, "Always"),
       dnsPolicy := Or(t.dnsPolicy, "ClusterFirst"),
       schedulerName := Or(t.schedulerName, "default-scheduler"),
       gracePeriod := if t.gracePeriod.None? then Some(30) else t.gracePeriod,
       serviceAccount := account, deprecatedServiceAccount := account,
       securityContext := if t.securityContext.None? then Some("") else t.securityContext,
       initContainers := DefaultedContainers(t.initContainers),
       containers := DefaultedContainers(t.containers),
       ephemeral := DefaultedEphemerals(t.ephemeral),
       overhead := Rounded(t.overhead),
       volumes := DefaultedVolumes(t.volumes))
  }

  // ---- The canonical form --------------------------------------------------

  function WithoutCarrier(es: seq<EnvVar>): seq<EnvVar> {
    if es == [] then []
    else WithoutCarrier(es[..|es| - 1]) + if es[|es| - 1].name == REVISION_ENV then [] else [es[|es| - 1]]
  }

  function StrippedContainers(cs: seq<Container>): seq<Container> {
    seq(|cs|, i requires 0 <= i < |cs| => cs[i].(env := WithoutCarrier(cs[i].env)))
  }

  /** Drops the two fields that carry a revision. */
  function Stripped(t: Template): Template {
    t.(annotations := t.annotations - {REVISION_ANNOTATION}, containers := StrippedContainers(t.containers))
  }

  function Canonical(t: Template): Template { Stripped(Defaulted(t)) }

  /** The controller's injection of a revision into both carriers. */
  function Inject(t: Template, revision: string): Template
    requires t.containers != []
  {
    var first := t.containers[0];
    t.(annotations := t.annotations[REVISION_ANNOTATION := revision],
       containers := t.containers[0 := first.(env := first.env + [EnvVar(REVISION_ENV, revision, None)])])
  }

  /** A template in the controller's memory, updated in place. `hash` stands for
      SHA-256 over the JSON encoding. */
  class Object {
    var template: Template

    constructor (template: Template)
      ensures this.template == template
    {
      this.template := template;
    }

    method ApplyDefaults()
      modifies this
      ensures template == Defaulted(old(template))
    {
      var t := template;
      if t.restartPolicy == "" { template := template.(restartPolicy := "Always"); }
      if t.dnsPolicy == "" { template := template.(dnsPolicy := "ClusterFirst"); }
      if t.schedulerName == "" { template := template.(schedulerName := "default-scheduler"); }
      if t.gracePeriod.None? { template := template.(gracePeriod := Some(30)); }
      if t.serviceAccount == "" { template := template.(serviceAccount := t.deprecatedServiceAccount); }
      template := template.(deprecatedServiceAccount := template.serviceAccount);
      if t.securityContext.None? { template := template.(securityContext := Some("")); }
      var inits := DefaultContainers(t.initContainers);
      var containers := DefaultContainers(t.containers);
      var volumes := DefaultVolumes(t.volumes);
      template := template.(initContainers := inits, containers := containers, volumes := volumes,
                            ephemeral := DefaultedEphemerals(t.ephemeral), overhead := Rounded(t.overhead));
    }

    /** Hashes a private copy: the object itself is not touched. */
    method Revision(hash: Template -> string) returns (revision: string)
      ensures revision == hash(Canonical(template))
    {
      var canonical := new Object(template);
      canonical.ApplyDefaults();
      var t := canonical.template;
      canonical.template := t.(annotations := t.annotations - {REVISION_ANNOTATION});
      for i := 0 to |t.containers|
        invariant |canonical.template.containers| == |t.containers|
        invariant forall k :: 0 <= k < i ==>
          canonical.template.containers[k] == t.containers[k].(env := WithoutCarrier(t.containers[k].env))
        invariant forall k :: i <= k < |t.containers| ==> canonical.template.containers[k] == t.containers[k]
        invariant canonical.template.(containers := []) == Stripped(t).(containers := [])
      {
        var kept := DeleteCarrier(t.containers[i].env);
        var c := canonical.template.containers[i].(env := kept);
        canonical.template := canonical.template.(containers := canonical.template.containers[i := c]);
      }
      assert canonical.template.containers == StrippedContainers(t.containers);
      revision := hash(canonical.template);
    }
  }

  method DefaultContainers(cs: seq<Container>) returns (r: seq<Container>)
    ensures r == DefaultedContainers(cs)
  {
    r := cs;
    for i := 0 to |cs|
      invariant |r| == |cs|
      invariant forall k :: 0 <= k < i ==> r[k] == DefaultedContainer(cs[k])
      invariant forall k :: i <= k < |cs| ==> r[k] == cs[k]
    {
      r := r[i := DefaultedContainer(r[i])];
    }
  }

  method DefaultVolumes(vs: seq<Volume>) returns (r: seq<Volume>)
    ensures r == DefaultedVolumes(vs)
  {
    r := vs;
    for i := 0 to |vs|
      invariant |r| == |vs|
      invariant forall k :: 0 <= k < i ==> r[k] == DefaultedVolume(vs[k])
      invariant forall k :: i <= k < |vs| ==> r[k] == vs[k]
    {
      r := r[i := DefaultedVolume(r[i])];
    }
  }

  method DeleteCarrier(es: seq<EnvVar>) returns (kept: seq<EnvVar>)
    ensures kept == WithoutCarrier(es)
  {
    kept := [];
    for i := 0 to |es|
      invariant kept == WithoutCarrier(es[..i])
    {
      assert es[..i + 1][..i] == es[..i];
      if es[i].name != REVISION_ENV { kept := kept + [es[i]]; }
    }
    assert es[..|es|] == es;
  }

  // ---- The fixed point -----------------------------------------------------

  /** At most one of the volume's sources still lacks a mode; one source per
      volume, as the API server enforces, implies it. */
  predicate AtMostOneUnset(v: Volume) {
    && !(Unset(v.configMap) && (Unset(v.secret) || Unset(v.projected) || Unset(v.downwardAPI)))
    && !(Unset(v.secret) && (Unset(v.projected) || Unset(v.downwardAPI)))
    && !(Unset(v.projected) && Unset(v.downwardAPI))
  }

  predicate VolumesAtMostOneUnset(vs: seq<Volume>) { forall i :: 0 <= i < |vs| ==> AtMostOneUnset(vs[i]) }

  predicate VolumesSettle(t: Template) { VolumesAtMostOneUnset(t.volumes) }

  // ---- What defaulting fills in --------------------------------------------

  predicate RoundedQuantities(r: Resources) { forall k :: k in r ==> r[k] % MILLI == 0 }

  predicate ProbeComplete(p: Option<Probe>) {
    p.Some? ==> p.value.timeout != 0 && p.value.period != 0 && p.value.success != 0 && p.value.failure != 0
  }

  predicate EnvComplete(e: EnvVar) { e.fieldRef.Some? ==> e.fieldRef.value.apiVersion != "" }

  predicate ContainerComplete(c: Container) {
    && c.pullPolicy != "" && c.messagePath != "" && c.messagePolicy != ""
    && (forall i :: 0 <= i < |c.env| ==> EnvComplete(c.env[i]))
    && ProbeComplete(c.readiness) && ProbeComplete(c.liveness) && ProbeComplete(c.startup)
    && RoundedQuantities(c.limits) && RoundedQuantities(c.requests)
  }

  predicate VolumeComplete(v: Volume) {
    !Unset(v.configMap) && !Unset(v.secret) && !Unset(v.projected) && !Unset(v.downwardAPI)
  }

  predicate ContainersComplete(cs: seq<Container>) { forall i :: 0 <= i < |cs| ==> ContainerComplete(cs[i]) }

  predicate EphemeralsRounded(es: seq<Ephemeral>) {
    forall i :: 0 <= i < |es| ==> RoundedQuantities(es[i].limits) && RoundedQuantities(es[i].requests)
  }

  predicate VolumesComplete(vs: seq<Volume>) { forall i :: 0 <= i < |vs| ==> VolumeComplete(vs[i]) }

  /** Nothing the API server would default is left unset. */
  predicate Complete(t: Template) {
    && t.restartPolicy != "" && t.dnsPolicy != "" && t.schedulerName != "" && t.gracePeriod.Some?
    && t.serviceAccount == t.deprecatedServiceAccount && t.securityContext.Some?
    && ContainersComplete(t.initContainers) && ContainersComplete(t.containers)
    && EphemeralsRounded(t.ephemeral) && RoundedQuantities(t.overhead) && VolumesComplete(t.volumes)
  }

  lemma RoundedIffFixed(r: Resources)
    ensures RoundedQuantities(Rounded(r))
    ensures RoundedQuantities(r) ==> Rounded(r) == r
  {
    forall q: nat
      ensures RoundUpMilli(q) % MILLI == 0
      ensures q % MILLI == 0 ==> RoundUpMilli(q) == q
    {
    }
  }

  lemma ContainerFilled(c: Container)
    ensures ContainerComplete(DefaultedContainer(c))
    ensures ContainerComplete(c) ==> DefaultedContainer(c) == c
  {
    RoundedIffFixed(c.limits);
    RoundedIffFixed(c.requests);
    if ContainerComplete(c) { assert DefaultedEnvs(c.env) == c.env; }
  }

  lemma EphemeralsFilled(es: seq<Ephemeral>)
    ensures EphemeralsRounded(DefaultedEphemerals(es))
    ensures EphemeralsRounded(es) ==> DefaultedEphemerals(es) == es
  {
    forall i | 0 <= i < |es|
      ensures RoundedQuantities(Rounded(es[i].limits)) && RoundedQuantities(Rounded(es[i].requests))
      ensures RoundedQuantities(es[i].limits) ==> Rounded(es[i].limits) == es[i].limits
      ensures RoundedQuantities(es[i].requests) ==> Rounded(es[i].requests) == es[i].requests
    {
      RoundedIffFixed(es[i].limits);
      RoundedIffFixed(es[i].requests);
    }
  }

  lemma ContainersFilled(cs: seq<Container>)
    ensures ContainersComplete(DefaultedContainers(cs))
    ensures ContainersComplete(cs) ==> DefaultedContainers(cs) == cs
  {
    forall i | 0 <= i < |cs|
      ensures ContainerComplete(DefaultedContainer(cs[i]))
      ensures ContainerComplete(cs[i]) ==> DefaultedContainer(cs[i]) == cs[i]
    {
      ContainerFilled(cs[i]);
    }
  }

  lemma VolumesFilled(vs: seq<Volume>)
    ensures VolumesComplete(vs) ==> DefaultedVolumes(vs) == vs
    ensures VolumesComplete(DefaultedVolumes(vs)) <==> VolumesAtMostOneUnset(vs)
  {
    forall i | 0 <= i < |vs|
      ensures VolumeComplete(vs[i]) ==> DefaultedVolume(vs[i]) == vs[i]
      ensures VolumeComplete(DefaultedVolumes(vs)[i]) <==> AtMostOneUnset(vs[i])
    {
    }
  }

  /** Defaulting changes nothing that is already set, and leaves nothing unset
      exactly when volumes settle. */
  lemma DefaultingFillsExactlyTheGaps(t: Template)
    ensures Complete(t) ==> Defaulted(t) == t
    ensures Complete(Defaulted(t)) <==> VolumesSettle(t)
  {
    ContainersFilled(t.initContainers);
    ContainersFilled(t.containers);
    EphemeralsFilled(t.ephemeral);
    RoundedIffFixed(t.overhead);
    VolumesFilled(t.volumes);
  }

  lemma VolumesDefaultedTwiceExactly(vs: seq<Volume>)
    ensures DefaultedVolumes(DefaultedVolumes(vs)) == DefaultedVolumes(vs)
       <==> VolumesAtMostOneUnset(vs)
  {
    forall i | 0 <= i < |vs|
      ensures DefaultedVolumes(DefaultedVolumes(vs))[i] == DefaultedVolumes(vs)[i] <==> AtMostOneUnset(vs[i])
    {
    }
    if DefaultedVolumes(DefaultedVolumes(vs)) == DefaultedVolumes(vs) {
      assert forall i :: 0 <= i < |vs| ==> DefaultedVolumes(DefaultedVolumes(vs))[i] == DefaultedVolumes(vs)[i];
    }
  }

  /** Defaulting a defaulted template changes nothing, exactly when no volume has
      two sources without a mode. */
  lemma DefaultingIdempotentExactly(t: Template)
    ensures Defaulted(Defaulted(t)) == Defaulted(t) <==> VolumesSettle(t)
  {
    var d := Defaulted(t);
    ContainersFilled(t.initContainers);
    ContainersFilled(d.initContainers);
    ContainersFilled(t.containers);
    ContainersFilled(d.containers);
    EphemeralsFilled(t.ephemeral);
    EphemeralsFilled(d.ephemeral);
    RoundedIffFixed(t.overhead);
    RoundedIffFixed(d.overhead);
    VolumesDefaultedTwiceExactly(t.volumes);
  }

  /** An API round trip, which defaults, keeps the hashed form under the same condition. */
  lemma CanonicalSurvivesDefaultingExactly(t: Template)
    ensures Canonical(Defaulted(t)) == Canonical(t) <==> VolumesSettle(t)
  {
    DefaultingIdempotentExactly(t);
    VolumesDefaultedTwiceExactly(t.volumes);
    assert Canonical(t).volumes == DefaultedVolumes(t.volumes);
    assert Canonical(Defaulted(t)).volumes == DefaultedVolumes(DefaultedVolumes(t.volumes));
  }

  lemma InjectedContainer(c: Container, carrier: EnvVar)
    requires carrier.name == REVISION_ENV && carrier.fieldRef.None?
    ensures
      var longer := DefaultedContainer(c.(env := c.env + [carrier]));
      longer.(env := WithoutCarrier(longer.env))
      == DefaultedContainer(c).(env := WithoutCarrier(DefaultedContainer(c).env))
  {
    var longer := DefaultedEnvs(c.env + [carrier]);
    assert longer[..|c.env|] == DefaultedEnvs(c.env) && longer[|c.env|] == carrier;
    assert WithoutCarrier(longer) == WithoutCarrier(DefaultedEnvs(c.env));
  }

  /** Neither carrier contributes: any injected revision leaves the hashed form alone. */
  lemma CanonicalIgnoresCarriers(t: Template, revision: string)
    requires t.containers != []
    ensures Canonical(Inject(t, revision)) == Canonical(t)
  {
    var c, d := Canonical(Inject(t, revision)), Canonical(t);
    InjectedContainer(t.containers[0], EnvVar(REVISION_ENV, revision, None));
    assert c.annotations == d.annotations;
    assert |c.containers| == |d.containers| && forall i :: 0 < i < |c.containers| ==> c.containers[i] == d.containers[i];
    assert c.containers == d.containers;
  }

  /** The template u is hashed, stamped with its revision and defaulted by the API
      server. The live template then has the hashed form of u, and so recomputes
      the injected revision, exactly when the volumes of u settle. */
  lemma RecomputedRevisionIsInjected(u: Template, hash: Template -> string)
    requires u.containers != []
    ensures
      var desired := hash(Canonical(u));
      var live := Defaulted(Inject(u, desired));
      && live.annotations[REVISION_ANNOTATION] == desired
      && (Canonical(live) == Canonical(u) <==> VolumesSettle(u))
      && (VolumesSettle(u) ==> hash(Canonical(live)) == desired)
  {
    var desired := hash(Canonical(u));
    CanonicalIgnoresCarriers(u, desired);
    CanonicalSurvivesDefaultingExactly(Inject(u, desired));
  }

  predicate AllUnset(v: Volume) { Unset(v.configMap) && Unset(v.secret) && Unset(v.projected) && Unset(v.downwardAPI) }

  /** The controller defaults twice before it hashes, so its volumes settle unless
      one was rendered with all four sources and no mode. */
  lemma TwiceDefaultedSettlesExactly(t: Template)
    ensures VolumesSettle(Defaulted(Defaulted(t))) <==> forall i :: 0 <= i < |t.volumes| ==> !AllUnset(t.volumes[i])
  {
    var twice := Defaulted(Defaulted(t)).volumes;
    forall i | 0 <= i < |t.volumes|
      ensures twice[i] == DefaultedVolume(DefaultedVolume(t.volumes[i]))
      ensures AtMostOneUnset(twice[i]) <==> !AllUnset(t.volumes[i])
    {
    }
  }
}
