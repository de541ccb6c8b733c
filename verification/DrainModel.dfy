/** Pods and Nodes as the drain placement search sees them, and the selector,
    affinity, taint and readiness rules. */
module DrainModel {
  import opened Wrappers

  type Labels = map<string, string>

  /** Quantities in nano-units; the API server refuses negative requests. */
  type Resources = map<string, nat>

  datatype SelectorOp = In | NotIn | Exists | DoesNotExist | Gt | Lt | UnknownOp

  datatype Requirement = Requirement(key: string, op: SelectorOp, values: seq<string>)

  datatype Term = Term(expressions: seq<Requirement>, fields: seq<Requirement>)

  datatype TolerationOp = TolerateExists | TolerateEqual | OtherToleration

  datatype Toleration = Toleration(key: string, op: TolerationOp, value: string, effect: string)

  datatype Taint = Taint(key: string, value: string, effect: string)

  datatype LabelOp = LabelIn | LabelNotIn | LabelExists | LabelDoesNotExist | LabelOther

  datatype LabelRequirement = LabelRequirement(key: string, op: LabelOp, values: seq<string>)

  /** `syntaxValid` is the library's verdict on the spelling of keys and values. */
  datatype LabelSelector = LabelSelector(matchLabels: Labels, expressions: seq<LabelRequirement>, syntaxValid: bool)

  datatype InclusionPolicy = Honor | Ignore

  datatype Constraint = Constraint(
    topologyKey: string, doNotSchedule: bool, maxSkew: int, minDomains: Option<int>,
    selector: Option<LabelSelector>, matchLabelKeys: seq<string>,
    affinityPolicy: Option<InclusionPolicy>, taintsPolicy: Option<InclusionPolicy>)

  datatype Phase = Pending | Running | Succeeded | Failed | Unknown

  /** `affinity` holds the required node-affinity terms, if any are declared. */
  datatype Pod = Pod(
    ns: string, uid: string, labels: Labels, nodeName: string, schedulerName: string,
    nodeSelector: Labels, affinity: Option<seq<Term>>, tolerations: seq<Toleration>, constraints: seq<Constraint>,
    containers: seq<Resources>, inits: seq<Resources>, overhead: Resources, podLevel: Option<Resources>,
    terminating: bool, phase: Phase)
  {
    /** A finished Pod that is not being deleted holds nothing. */
    predicate Finished() { !terminating && (phase == Succeeded || phase == Failed) }
  }

  datatype Condition = Condition(kind: string, statusTrue: bool)

  datatype Node = Node(
    name: string, labels: Labels, unschedulable: bool, conditions: seq<Condition>,
    taints: seq<Taint>, allocatable: Resources)

  // ---- Node selection ------------------------------------------------------

  predicate IsDigits(s: string) { s != "" && forall i :: 0 <= i < |s| ==> '0' <= s[i] <= '9' }

  function Digits(s: string): nat
    requires forall i :: 0 <= i < |s| ==> '0' <= s[i] <= '9'
  {
    if s == "" then 0 else Digits(s[..|s| - 1]) * 10 + (s[|s| - 1] as int - '0' as int)
  }

  /** strconv.ParseInt(s, 10, 64). */
  function ParseInt64(s: string): Option<int> {
    var signed := s != "" && (s[0] == '-' || s[0] == '+');
    var digits := if signed then s[1..] else s;
    if !IsDigits(digits) then None
    else
      var value := if signed && s[0] == '-' then -(Digits(digits) as int) else Digits(digits);
      if -0x8000_0000_0000_0000 <= value < 0x8000_0000_0000_0000 then Some(value) else None
  }

  predicate RequirementMatches(values: Labels, r: Requirement) {
    match r.op
    case In => r.key in values && values[r.key] in r.values
    case NotIn => r.key !in values || values[r.key] !in r.values
    case Exists => r.key in values
    case DoesNotExist => r.key !in values
    case Gt | Lt =>
      && r.key in values && |r.values| == 1
      && var actual, wanted := ParseInt64(values[r.key]), ParseInt64(r.values[0]);
         && actual.Some? && wanted.Some?
         && if r.op == Gt then actual.value > wanted.value else actual.value < wanted.value
    case UnknownOp => false
  }

  predicate TermMatches(node: Node, t: Term) {
    && (t.expressions != [] || t.fields != [])
    && (forall i :: 0 <= i < |t.expressions| ==> RequirementMatches(node.labels, t.expressions[i]))
    && (forall i :: 0 <= i < |t.fields| ==>
          t.fields[i].key == "metadata.name" && RequirementMatches(map["metadata.name" := node.name], t.fields[i]))
  }

  predicate MatchesSelectorAffinity(pod: Pod, node: Node) {
    && Agrees(node.labels, pod.nodeSelector)
    && (pod.affinity.Some? ==>
          exists i :: 0 <= i < |pod.affinity.value| && TermMatches(node, pod.affinity.value[i]))
  }

  predicate Tolerates(t: Toleration, taint: Taint) {
    && (t.effect == "" || t.effect == taint.effect) && t.key == taint.key
    && (t.op == TolerateExists || (t.op == TolerateEqual && t.value == taint.value))
  }

  predicate TaintsTolerated(pod: Pod, node: Node) {
    forall i :: 0 <= i < |node.taints| && node.taints[i].effect in {"NoSchedule", "NoExecute"} ==>
      exists k :: 0 <= k < |pod.tolerations| && Tolerates(pod.tolerations[k], node.taints[i])
  }

  /** The first Ready condition decides. */
  predicate Ready(node: Node) {
    exists i :: 0 <= i < |node.conditions| && node.conditions[i].kind == "Ready" && node.conditions[i].statusTrue
      && forall k :: 0 <= k < i ==> node.conditions[k].kind != "Ready"
  }

  predicate CandidateNode(pod: Pod, node: Node) {
    !node.unschedulable && Ready(node) && MatchesSelectorAffinity(pod, node) && TaintsTolerated(pod, node)
  }
}
