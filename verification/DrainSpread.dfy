/** Hard topology-spread constraints: the loops over Nodes and Pods against a
    declarative skew rule, and what a sequence of allowed placements keeps. */
module DrainSpread {
  import opened Wrappers
  import opened DrainModel
  import opened Counting

  // ---- Label selectors -----------------------------------------------------

  predicate ExpressionValid(e: LabelRequirement) {
    match e.op
    case LabelIn | LabelNotIn => e.values != []
    case LabelExists | LabelDoesNotExist => e.values == []
    case LabelOther => false
  }

  /** What the library accepts as a selector. */
  predicate SelectorValid(s: LabelSelector) {
    || (s.matchLabels == map[] && s.expressions == [])
    || (s.syntaxValid && forall i :: 0 <= i < |s.expressions| ==> ExpressionValid(s.expressions[i]))
  }

  predicate ExpressionMatches(e: LabelRequirement, labels: Labels) {
    match e.op
    case LabelIn => e.key in labels && labels[e.key] in e.values
    case LabelNotIn => e.key !in labels || labels[e.key] !in e.values
    case LabelExists => e.key in labels
    case LabelDoesNotExist => e.key !in labels
    case LabelOther => false
  }

  /** An absent selector matches nothing, an empty one everything. */
  predicate SelectorMatches(s: Option<LabelSelector>, labels: Labels) {
    && s.Some?
    && (forall k :: k in s.value.matchLabels ==> k in labels && labels[k] == s.value.matchLabels[k])
    && (forall i :: 0 <= i < |s.value.expressions| ==> ExpressionMatches(s.value.expressions[i], labels))
  }

  datatype SpreadError = KeysWithoutSelector | RepeatedKey | InvalidSelector

  /** The Pod's own values of the keys join the selector; a key given twice is refused. */
  function MergeKeys(matched: Labels, keys: seq<string>, labels: Labels): Option<Labels>
    decreases keys
  {
    if keys == [] then Some(matched)
    else if keys[0] in matched then None
    else if keys[0] in labels then MergeKeys(matched[keys[0] := labels[keys[0]]], keys[1..], labels)
    else MergeKeys(matched, keys[1..], labels)
  }

  /** No key is already selected on, or repeats with a value on the Pod. */
  predicate Mergeable(matched: Labels, keys: seq<string>, labels: Labels) {
    && (forall i :: 0 <= i < |keys| ==> keys[i] !in matched)
    && (forall i, j :: 0 <= i < j < |keys| && keys[i] == keys[j] ==> keys[i] !in labels)
  }

  /** Merging a key with a value makes it selected on for the rest. */
  lemma MergeableTaken(matched: Labels, key: string, rest: seq<string>, labels: Labels)
    requires key !in matched && key in labels
    ensures Mergeable(matched, [key] + rest, labels) <==> Mergeable(matched[key := labels[key]], rest, labels)
  {
    var keys := [key] + rest;
    assert forall i :: 0 <= i < |rest| ==> rest[i] == keys[i + 1];
    assert forall i :: 0 < i < |keys| ==> keys[i] == rest[i - 1];
    if Mergeable(matched, keys, labels) {
      forall i | 0 <= i < |rest| ensures rest[i] !in matched[key := labels[key]] {
        assert keys[0] != keys[i + 1];
      }
    }
  }

  lemma MergeableSkipped(matched: Labels, key: string, rest: seq<string>, labels: Labels)
    requires key !in matched && key !in labels
    ensures Mergeable(matched, [key] + rest, labels) <==> Mergeable(matched, rest, labels)
  {
    var keys := [key] + rest;
    assert forall i :: 0 <= i < |rest| ==> rest[i] == keys[i + 1];
    assert forall i :: 0 < i < |keys| ==> keys[i] == rest[i - 1];
  }

  lemma {:induction false} MergedKeysExactly(matched: Labels, keys: seq<string>, labels: Labels)
    ensures MergeKeys(matched, keys, labels).Some? <==> Mergeable(matched, keys, labels)
    decreases keys
  {
    if keys != [] && keys[0] !in matched {
      assert keys == [keys[0]] + keys[1..];
      if keys[0] in labels {
        MergeableTaken(matched, keys[0], keys[1..], labels);
        MergedKeysExactly(matched[keys[0] := labels[keys[0]]], keys[1..], labels);
      } else {
        MergeableSkipped(matched, keys[0], keys[1..], labels);
        MergedKeysExactly(matched, keys[1..], labels);
      }
    }
  }

  /** A merge keeps what was selected and adds the Pod's value of each key it has,
      and nothing else. */
  lemma {:induction false} MergedContents(matched: Labels, keys: seq<string>, labels: Labels, k: string)
    requires MergeKeys(matched, keys, labels).Some?
    ensures
      var r := MergeKeys(matched, keys, labels).value;
      && (k in r <==> k in matched || (k in keys && k in labels))
      && (k in r ==> r[k] == if k in matched then matched[k] else labels[k])
    decreases keys
  {
    if keys != [] {
      assert keys == [keys[0]] + keys[1..];
      MergedContents(if keys[0] in labels then matched[keys[0] := labels[keys[0]]] else matched, keys[1..], labels, k);
    }
  }

  function EffectiveSelector(pod: Pod, c: Constraint): Result<Option<LabelSelector>, SpreadError> {
    if c.selector.None? then
      if c.matchLabelKeys != [] then Err(KeysWithoutSelector) else Ok(None)
    else
      var merged := MergeKeys(c.selector.value.matchLabels, c.matchLabelKeys, pod.labels);
      if merged.None? then Err(RepeatedKey)
      else
        var s := c.selector.value.(matchLabels := merged.value);
        if SelectorValid(s) then Ok(Some(s)) else Err(InvalidSelector)
  }

  method BuildSelector(pod: Pod, c: Constraint) returns (r: Result<Option<LabelSelector>, SpreadError>)
    ensures r == EffectiveSelector(pod, c)
  {
    if c.selector.None? {
      return if |c.matchLabelKeys| != 0 then Err(KeysWithoutSelector) else Ok(None);
    }
    var matched := c.selector.value.matchLabels;
    for i := 0 to |c.matchLabelKeys|
      invariant MergeKeys(matched, c.matchLabelKeys[i..], pod.labels)
             == MergeKeys(c.selector.value.matchLabels, c.matchLabelKeys, pod.labels)
    {
      var key := c.matchLabelKeys[i];
      assert c.matchLabelKeys[i..][1..] == c.matchLabelKeys[i + 1..];
      if key in matched { return Err(RepeatedKey); }
      if key in pod.labels { matched := matched[key := pod.labels[key]]; }
    }
    var s := c.selector.value.(matchLabels := matched);
    return if SelectorValid(s) then Ok(Some(s)) else Err(InvalidSelector);
  }

  // ---- Domains and counts --------------------------------------------------

  predicate Eligible(pod: Pod, c: Constraint, node: Node) {
    && node.name != pod.nodeName && Ready(node) && !node.unschedulable
    && (c.affinityPolicy.None? || c.affinityPolicy.value == Honor ==> MatchesSelectorAffinity(pod, node))
    && (c.taintsPolicy.Some? && c.taintsPolicy.value == Honor ==> TaintsTolerated(pod, node))
  }

  predicate OffersDomain(pod: Pod, c: Constraint, node: Node, domain: string) {
    Eligible(pod, c, node) && domain != "" && c.topologyKey in node.labels && node.labels[c.topologyKey] == domain
  }

  ghost predicate EligibleDomain(pod: Pod, c: Constraint, nodes: seq<Node>, domain: string) {
    exists i :: 0 <= i < |nodes| && OffersDomain(pod, c, nodes[i], domain)
  }

  ghost predicate AreDomains(pod: Pod, c: Constraint, nodes: seq<Node>, domains: set<string>) {
    forall d :: d in domains <==> EligibleDomain(pod, c, nodes, d)
  }

  /** The Node of a name, as the name index holds it. */
  function NodeNamed(nodes: seq<Node>, name: string): Option<Node> {
    if nodes == [] then None
    else if nodes[|nodes| - 1].name == name then Some(nodes[|nodes| - 1])
    else NodeNamed(nodes[..|nodes| - 1], name)
  }

  /** Another scheduled, unfinished Pod of the namespace that the selector matches. */
  predicate Matching(pod: Pod, s: Option<LabelSelector>, other: Pod) {
    && other.uid != pod.uid && other.ns == pod.ns && other.nodeName != "" && !other.Finished()
    && SelectorMatches(s, other.labels)
  }

  predicate CountsIn(pod: Pod, c: Constraint, s: Option<LabelSelector>, nodes: seq<Node>, domain: string, other: Pod) {
    && Matching(pod, s, other)
    && NodeNamed(nodes, other.nodeName).Some?
    && Lookup(NodeNamed(nodes, other.nodeName).value.labels, c.topologyKey) == domain
  }

  function Weight(pod: Pod, c: Constraint, s: Option<LabelSelector>, nodes: seq<Node>, domain: string): Pod -> nat {
    (other: Pod) => if CountsIn(pod, c, s, nodes, domain, other) then 1 else 0
  }

  function Count(
    pod: Pod, c: Constraint, s: Option<LabelSelector>, nodes: seq<Node>, pods: seq<Pod>, domain: string): nat
  {
    Total(Weight(pod, c, s, nodes, domain), pods)
  }

  method CollectDomains(pod: Pod, c: Constraint, nodes: seq<Node>)
    returns (domains: set<string>, byName: map<string, Node>)
    ensures AreDomains(pod, c, nodes, domains) && "" !in domains
    ensures forall name :: NodeNamed(nodes, name) == if name in byName then Some(byName[name]) else None
  {
    domains, byName := {}, map[];
    for i := 0 to |nodes|
      invariant AreDomains(pod, c, nodes[..i], domains) && "" !in domains
      invariant forall name :: NodeNamed(nodes[..i], name) == if name in byName then Some(byName[name]) else None
    {
      var node := nodes[i];
      var before := domains;
      assert nodes[..i + 1][..i] == nodes[..i] && nodes[..i + 1][i] == node;
      byName := byName[node.name := node];
      if Eligible(pod, c, node) && c.topologyKey in node.labels && node.labels[c.topologyKey] != "" {
        domains := domains + {node.labels[c.topologyKey]};
      }
      DomainsGrow(pod, c, nodes, i, before, domains);
    }
    assert nodes[..|nodes|] == nodes;
  }

  lemma DomainsGrow(pod: Pod, c: Constraint, nodes: seq<Node>, i: nat, before: set<string>, after: set<string>)
    requires i < |nodes| && AreDomains(pod, c, nodes[..i], before)
    requires forall d :: d in after <==> d in before || OffersDomain(pod, c, nodes[i], d)
    ensures AreDomains(pod, c, nodes[..i + 1], after)
  {
  }

  method CountPods(
    pod: Pod, c: Constraint, s: Option<LabelSelector>, nodes: seq<Node>, byName: map<string, Node>,
    domains: set<string>, pods: seq<Pod>)
    returns (counts: map<string, nat>)
    requires forall name :: NodeNamed(nodes, name) == if name in byName then Some(byName[name]) else None
    ensures counts.Keys == domains
    ensures forall d :: d in domains ==> counts[d] == Count(pod, c, s, nodes, pods, d)
  {
    counts := map d | d in domains :: 0;
    for i := 0 to |pods|
      invariant counts.Keys == domains
      invariant forall d :: d in domains ==> counts[d] == Count(pod, c, s, nodes, pods[..i], d)
    {
      var other := pods[i];
      assert pods[..i + 1][..i] == pods[..i] && pods[..i + 1][i] == other;
      if !Matching(pod, s, other) { continue; }
      if other.nodeName in byName {
        assert NodeNamed(nodes, other.nodeName) == Some(byName[other.nodeName]);
        var domain := Lookup(byName[other.nodeName].labels, c.topologyKey);
        if domain in domains { counts := counts[domain := counts[domain] + 1]; }
      } else {
        assert NodeNamed(nodes, other.nodeName) == None;
      }
    }
    assert pods[..|pods|] == pods;
  }

  /** The sentinel loop over the counts. */
  method Minimum(counts: map<string, nat>) returns (minimum: nat)
    ensures counts == map[] ==> minimum == 0
    ensures counts != map[] ==>
      (exists d :: d in counts && counts[d] == minimum) && forall d :: d in counts ==> minimum <= counts[d]
  {
    var least: int := -1;
    var keys := counts.Keys;
    while keys != {}
      invariant keys <= counts.Keys && -1 <= least
      invariant least == -1 <==> keys == counts.Keys
      invariant least >= 0 ==> exists d :: d in counts && counts[d] == least
      invariant forall d :: d in counts && d !in keys ==> least <= counts[d]
      decreases keys
    {
      var d :| d in keys;
      if least < 0 || counts[d] < least { least := counts[d]; }
      keys := keys - {d};
    }
    if counts != map[] { assert exists d :: d in counts; }
    minimum := if least < 0 then 0 else least;
  }

  // ---- The skew rule -------------------------------------------------------

  /** Fewer domains are eligible than the constraint asks for. */
  predicate BelowMinDomains(c: Constraint, domains: set<string>) {
    c.minDomains.Some? && |domains| < c.minDomains.value
  }

  /** One more Pod in `domain` exceeds the smallest eligible count, which counts
      as zero below minDomains, by at most maxSkew. */
  ghost predicate RoomFor(
    pod: Pod, c: Constraint, s: Option<LabelSelector>, nodes: seq<Node>, pods: seq<Pod>,
    domains: set<string>, domain: string)
  {
    && domain in domains
    && if BelowMinDomains(c, domains) then Count(pod, c, s, nodes, pods, domain) + 1 <= c.maxSkew
       else exists least ::
         && least in domains
         && (forall d :: d in domains ==>
               Count(pod, c, s, nodes, pods, least) <= Count(pod, c, s, nodes, pods, d))
         && Count(pod, c, s, nodes, pods, domain) + 1 - Count(pod, c, s, nodes, pods, least) <= c.maxSkew
  }

  lemma RoomDependsOnCounts(
    pod: Pod, c: Constraint, s: Option<LabelSelector>, nodes: seq<Node>, a: seq<Pod>, b: seq<Pod>,
    domains: set<string>, domain: string)
    requires forall d :: Count(pod, c, s, nodes, a, d) == Count(pod, c, s, nodes, b, d)
    ensures RoomFor(pod, c, s, nodes, a, domains, domain) <==> RoomFor(pod, c, s, nodes, b, domains, domain)
  {
  }

  ghost function Domains(pod: Pod, c: Constraint, nodes: seq<Node>): (domains: set<string>)
    ensures AreDomains(pod, c, nodes, domains)
  {
    var named := set i | 0 <= i < |nodes| :: Lookup(nodes[i].labels, c.topologyKey);
    DomainsAreNamed(pod, c, nodes, named);
    set d | d in named && EligibleDomain(pod, c, nodes, d)
  }

  lemma DomainsAreNamed(pod: Pod, c: Constraint, nodes: seq<Node>, named: set<string>)
    requires named == set i | 0 <= i < |nodes| :: Lookup(nodes[i].labels, c.topologyKey)
    ensures forall d :: EligibleDomain(pod, c, nodes, d) ==> d in named
  {
  }

  lemma DomainsUnique(pod: Pod, c: Constraint, nodes: seq<Node>, domains: set<string>)
    requires AreDomains(pod, c, nodes, domains)
    ensures domains == Domains(pod, c, nodes)
  {
  }

  const MAX_INT32 := 0x7fff_ffff

  lemma {:induction false} DomainsAtMostNodes(pod: Pod, c: Constraint, nodes: seq<Node>)
    ensures |Domains(pod, c, nodes)| <= |nodes|
  {
    if nodes == [] {
      assert Domains(pod, c, nodes) == {};
    } else {
      var init, last := nodes[..|nodes| - 1], nodes[|nodes| - 1];
      DomainsAtMostNodes(pod, c, init);
      var fewer, domain := Domains(pod, c, init), Lookup(last.labels, c.topologyKey);
      assert forall d :: EligibleDomain(pod, c, nodes, d) ==> EligibleDomain(pod, c, init, d) || d == domain;
      assert Domains(pod, c, nodes) <= fewer + {domain};
      SubsetSize(Domains(pod, c, nodes), fewer + {domain});
    }
  }

  lemma SubsetSize(a: set<string>, b: set<string>)
    requires a <= b
    ensures |a| <= |b|
  {
    assert |b - a| == |b| - |a|;
  }

  /** The source counts in 32 bits. For lists that a 32-bit count can hold at all,
      no sum, difference or domain count of the skew rule leaves that range. */
  lemma CountsFit32(
    pod: Pod, c: Constraint, s: Option<LabelSelector>, nodes: seq<Node>, pods: seq<Pod>, d: string, least: string)
    requires |pods| < MAX_INT32 && |nodes| <= MAX_INT32
    ensures Count(pod, c, s, nodes, pods, d) + 1 <= MAX_INT32
    ensures -MAX_INT32 <= Count(pod, c, s, nodes, pods, d) + 1 - Count(pod, c, s, nodes, pods, least) <= MAX_INT32
    ensures |Domains(pod, c, nodes)| <= MAX_INT32
  {
    TotalAtMostLength(Weight(pod, c, s, nodes, d), pods);
    TotalAtMostLength(Weight(pod, c, s, nodes, least), pods);
    DomainsAtMostNodes(pod, c, nodes);
  }

  datatype Verdict = Pass | Refuse | Malformed(error: SpreadError)

  /** One constraint: a candidate without a domain is refused before the
      selector is even looked at. */
  ghost function ConstraintVerdict(
    pod: Pod, c: Constraint, candidate: Node, nodes: seq<Node>, pods: seq<Pod>): Verdict
  {
    if !c.doNotSchedule then Pass
    else if Lookup(candidate.labels, c.topologyKey) == "" then Refuse
    else
      var s := EffectiveSelector(pod, c);
      if s.Err? then Malformed(s.error)
      else if RoomFor(pod, c, s.value, nodes, pods, Domains(pod, c, nodes), Lookup(candidate.labels, c.topologyKey))
      then Pass
      else Refuse
  }

  method CheckConstraint(
    pod: Pod, c: Constraint, candidate: Node, nodes: seq<Node>, pods: seq<Pod>) returns (v: Verdict)
    ensures v == ConstraintVerdict(pod, c, candidate, nodes, pods)
  {
    if !c.doNotSchedule { return Pass; }
    if c.topologyKey !in candidate.labels || candidate.labels[c.topologyKey] == "" { return Refuse; }
    var domain := candidate.labels[c.topologyKey];
    var s := BuildSelector(pod, c);
    if s.Err? { return Malformed(s.error); }
    var domains, byName := CollectDomains(pod, c, nodes);
    DomainsUnique(pod, c, nodes, domains);
    if domain !in domains { return Refuse; }
    var counts := CountPods(pod, c, s.value, nodes, byName, domains, pods);
    var minimum := 0;
    if c.minDomains.None? || |domains| >= c.minDomains.value {
      assert domain in counts;
      minimum := Minimum(counts);
    }
    v := if counts[domain] + 1 - minimum > c.maxSkew then Refuse else Pass;
    SkewVerdict(pod, c, s.value, nodes, pods, domains, domain, counts, minimum);
  }

  lemma SkewVerdict(
    pod: Pod, c: Constraint, s: Option<LabelSelector>, nodes: seq<Node>, pods: seq<Pod>, domains: set<string>,
    domain: string, counts: map<string, nat>, minimum: nat)
    requires domain in domains && counts.Keys == domains
    requires forall d :: d in domains ==> counts[d] == Count(pod, c, s, nodes, pods, d)
    requires BelowMinDomains(c, domains) ==> minimum == 0
    requires !BelowMinDomains(c, domains) ==>
      (exists d :: d in counts && counts[d] == minimum) && forall d :: d in counts ==> minimum <= counts[d]
    ensures RoomFor(pod, c, s, nodes, pods, domains, domain) <==> counts[domain] + 1 - minimum <= c.maxSkew
  {
  }

  ghost predicate PassesBefore(pod: Pod, candidate: Node, nodes: seq<Node>, pods: seq<Pod>, n: nat)
    requires n <= |pod.constraints|
  {
    forall i :: 0 <= i < n ==> ConstraintVerdict(pod, pod.constraints[i], candidate, nodes, pods) == Pass
  }

  /** The candidate satisfies every hard constraint. */
  ghost predicate SpreadAllows(pod: Pod, candidate: Node, nodes: seq<Node>, pods: seq<Pod>) {
    PassesBefore(pod, candidate, nodes, pods, |pod.constraints|)
  }

  ghost predicate FirstIs(pod: Pod, candidate: Node, nodes: seq<Node>, pods: seq<Pod>, v: Verdict) {
    exists i ::
      && 0 <= i < |pod.constraints| && PassesBefore(pod, candidate, nodes, pods, i)
      && ConstraintVerdict(pod, pod.constraints[i], candidate, nodes, pods) == v
  }

  /** The first constraint that does not pass decides. */
  method DrainTopologySpreadAllows(pod: Pod, candidate: Node, nodes: seq<Node>, pods: seq<Pod>)
    returns (r: Result<bool, SpreadError>)
    ensures r == Ok(true) <==> SpreadAllows(pod, candidate, nodes, pods)
    ensures r == Ok(false) <==> FirstIs(pod, candidate, nodes, pods, Refuse)
    ensures r.Err? ==> FirstIs(pod, candidate, nodes, pods, Malformed(r.error))
  {
    for i := 0 to |pod.constraints|
      invariant PassesBefore(pod, candidate, nodes, pods, i)
    {
      var v := CheckConstraint(pod, pod.constraints[i], candidate, nodes, pods);
      if v.Refuse? { return Ok(false); }
      if v.Malformed? { return Err(v.error); }
    }
    return Ok(true);
  }

  // ---- Placements ----------------------------------------------------------

  /** A replica of the drained Pod, running on the chosen Node. */
  function Placed(pod: Pod, node: Node, uid: string): Pod {
    pod.(uid := uid, nodeName := node.name, terminating := false, phase := Running)
  }

  /** Every eligible domain is within maxSkew of the smallest, or of zero below minDomains. */
  ghost predicate SkewHeld(pod: Pod, c: Constraint, s: Option<LabelSelector>, nodes: seq<Node>, pods: seq<Pod>) {
    var domains := Domains(pod, c, nodes);
    forall d :: d in domains ==>
      if BelowMinDomains(c, domains) then Count(pod, c, s, nodes, pods, d) <= c.maxSkew
      else forall e :: e in domains ==>
        Count(pod, c, s, nodes, pods, d) <= Count(pod, c, s, nodes, pods, e) + c.maxSkew
  }

  lemma CountAfterPlacing(
    pod: Pod, c: Constraint, s: Option<LabelSelector>, nodes: seq<Node>, pods: seq<Pod>,
    node: Node, uid: string, d: string)
    requires NodeNamed(nodes, node.name) == Some(node)
    ensures
      var after := Count(pod, c, s, nodes, pods + [Placed(pod, node, uid)], d);
      Count(pod, c, s, nodes, pods, d) <= after
        <= Count(pod, c, s, nodes, pods, d) + if Lookup(node.labels, c.topologyKey) == d then 1 else 0
  {
  }

  /** An allowed placement keeps the skew bound of every hard constraint that
      was satisfied before it. */
  lemma AllowedPlacementKeepsSkew(
    pod: Pod, i: nat, s: Option<LabelSelector>, nodes: seq<Node>, pods: seq<Pod>, node: Node, uid: string)
    requires i < |pod.constraints| && pod.constraints[i].doNotSchedule
    requires EffectiveSelector(pod, pod.constraints[i]) == Ok(s)
    requires NodeNamed(nodes, node.name) == Some(node)
    requires SpreadAllows(pod, node, nodes, pods) && SkewHeld(pod, pod.constraints[i], s, nodes, pods)
    ensures SkewHeld(pod, pod.constraints[i], s, nodes, pods + [Placed(pod, node, uid)])
  {
    var c := pod.constraints[i];
    var domains := Domains(pod, c, nodes);
    var after := pods + [Placed(pod, node, uid)];
    assert ConstraintVerdict(pod, c, node, nodes, pods) == Pass;
    forall d | d in domains
      ensures Count(pod, c, s, nodes, pods, d) <= Count(pod, c, s, nodes, after, d)
           <= Count(pod, c, s, nodes, pods, d) + if Lookup(node.labels, c.topologyKey) == d then 1 else 0
    {
      CountAfterPlacing(pod, c, s, nodes, pods, node, uid, d);
    }
  }

  datatype Placement = Placement(node: Node, uid: string)

  function After(pod: Pod, pods: seq<Pod>, placements: seq<Placement>): seq<Pod>
    decreases placements
  {
    if placements == [] then pods
    else After(pod, pods + [Placed(pod, placements[0].node, placements[0].uid)], placements[1..])
  }

  /** Each placement is allowed in the state its predecessors left. */
  ghost predicate AllAllowed(pod: Pod, nodes: seq<Node>, pods: seq<Pod>, placements: seq<Placement>)
    decreases placements
  {
    placements == [] ||
    (NodeNamed(nodes, placements[0].node.name) == Some(placements[0].node)
     && SpreadAllows(pod, placements[0].node, nodes, pods)
     && AllAllowed(pod, nodes, pods + [Placed(pod, placements[0].node, placements[0].uid)], placements[1..]))
  }

  /** So does any sequence of allowed placements. */
  lemma {:induction false} PlacementsKeepSkew(
    pod: Pod, i: nat, s: Option<LabelSelector>, nodes: seq<Node>, pods: seq<Pod>, placements: seq<Placement>)
    requires i < |pod.constraints| && pod.constraints[i].doNotSchedule
    requires EffectiveSelector(pod, pod.constraints[i]) == Ok(s)
    requires AllAllowed(pod, nodes, pods, placements) && SkewHeld(pod, pod.constraints[i], s, nodes, pods)
    ensures SkewHeld(pod, pod.constraints[i], s, nodes, After(pod, pods, placements))
    decreases placements
  {
    if placements != [] {
      var p := placements[0];
      AllowedPlacementKeepsSkew(pod, i, s, nodes, pods, p.node, p.uid);
      PlacementsKeepSkew(pod, i, s, nodes, pods + [Placed(pod, p.node, p.uid)], placements[1..]);
    }
  }
}
