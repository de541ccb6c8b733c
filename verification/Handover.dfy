/** Config-writer exclusion between the in-process aggregator and the per-device
    Deployment. Every persisted write, every read that gates one and every
    cluster event is one step; passes interleave, fail and crash anywhere. */
module Handover {

  datatype Mode = Aggregating | PerDevice

  datatype Deployment = Absent | Live | Terminating

  /** Managed topology's hold on the device. A managed device has a Node identity
      and no handoff record; `applied` says that a pass since enrolment has applied
      the worker Deployments, `held` that a worker holds the mutation Lease and
      `session` that an acknowledged software-mutation session is not settled.
      Leaving is a recorded, incomplete handoff. */
  datatype Enrolment = Unmanaged | Managed(applied: bool, held: bool, session: bool) | Leaving

  /** The next thing the CiscoDevice pass will do. */
  datatype Pass =
    | Idle | ReconcileTopology
    // with the aggregator owning a registered driver
    | ReadDeployment
    | WriteOwning(deleteStale: bool) | WriteNotOwned(deleteStale: bool)
    | DeleteStale(handover: bool)
    | CheckQuiesced(handover: bool)
    | LateWriteOwning | LateWriteNotOwned
    | ClearOwning | WriteOwned
    // with per-device workers
    | ClearOwned | ClearOwningPerDevice | ApplyDeployment

  /** The aggregator between its gate and starting the worker. */
  datatype Gate = Closed | Passed

  datatype State = State(
    registered: bool, mode: Mode, topology: bool, enrolment: Enrolment, owned: bool, owning: bool,
    deployment: Deployment, replicaSets: nat, pods: nat,
    pass: Pass, gate: Gate, worker: bool)
  {
    predicate AggregatorOwnsDriver() { mode == Aggregating && registered }

    /** No per-device workload exists or can come into being on its own. */
    predicate Clear() { deployment == Absent && replicaSets == 0 && pods == 0 }

    /** The conditions under which the aggregator's gate lets a worker start. */
    predicate GateOpen() { owned && !owning }

    /** A managed device in a pass of the mode that supports it. */
    predicate Reconciling() {
      pass == ReconcileTopology && mode == PerDevice && topology && enrolment.Managed?
    }

    /** Maintenance recovery: a cancelled session whose worker still holds its
        Lease lets the pass repair the worker without clearing the conditions. */
    predicate RecoveryReady() { Reconciling() && enrolment.session && enrolment.held }
  }

  datatype Action =
    | BeginPass | ContinuePass | AbandonPass
    | Enrol | Acknowledge | Settle | Recover | BeginHandoff
    | HandoffDone | WorkerAcquires | WorkerReleases
    | AggregatorRead | AggregatorStart | AggregatorGiveUp | WorkerExit
    | NewReplicaSet | NewPod | PodGone | ReplicaSetGone | DeploymentGone | DeleteDeployment
    | Restart(mode: Mode, topology: bool)

  /** A Deployment, deleted in the foreground, disappears only after its ReplicaSets. */
  predicate Enabled(s: State, a: Action) {
    match a
    case BeginPass => s.pass == Idle
    case ContinuePass => s.pass != Idle
    case Enrol => s.pass == ReconcileTopology && s.mode == PerDevice && s.topology && s.enrolment == Unmanaged
    case Acknowledge => s.Reconciling() && s.enrolment.held
    case Settle => s.Reconciling() && !s.enrolment.held
    case Recover => s.RecoveryReady()
    case BeginHandoff =>
      s.pass == ReconcileTopology && s.enrolment.Managed? && !s.enrolment.held && !s.enrolment.session
    case AbandonPass => true
    case HandoffDone => s.enrolment == Leaving
    case WorkerAcquires => s.enrolment.Managed? && s.enrolment.applied
    case WorkerReleases => s.enrolment.Managed?
    case AggregatorRead => s.mode == Aggregating && s.gate == Closed
    case AggregatorStart => s.gate == Passed
    case AggregatorGiveUp => s.gate == Passed
    case WorkerExit => true
    case NewReplicaSet => s.deployment == Live
    case NewPod => s.replicaSets > 0
    case PodGone => s.pods > 0
    case ReplicaSetGone => s.replicaSets > 0
    case DeploymentGone => s.deployment == Terminating && s.replicaSets == 0
    case DeleteDeployment => s.deployment == Live
    case Restart(_, _) => true
  }

  function Delete(d: Deployment): Deployment { if d == Live then Terminating else d }

  function AfterTopology(s: State): Pass { if s.AggregatorOwnsDriver() then ReadDeployment else ClearOwned }

  /** Managed topology comes first: a managed device is refused under the
      aggregator and without managed topology, which ends the pass. It leaves only
      by a handoff, when no session and no Lease holder is left. */
  function TopologyReconciled(s: State): State {
    s.(pass := if s.enrolment.Managed? && (s.mode == Aggregating || !s.topology) then Idle else AfterTopology(s))
  }

  function ContinueAggregating(s: State): State
    requires s.pass != Idle
  {
    match s.pass
    case ReadDeployment =>
      var stale := s.deployment != Absent;
      if stale || s.owning || !s.owned then s.(pass := WriteOwning(stale)) else s.(pass := CheckQuiesced(false))
    case WriteOwning(stale) => s.(owning := true, pass := WriteNotOwned(stale))
    case WriteNotOwned(stale) =>
      s.(owned := false, pass := if stale then DeleteStale(true) else CheckQuiesced(true))
    case DeleteStale(handover) => s.(deployment := Delete(s.deployment), pass := CheckQuiesced(handover))
    case CheckQuiesced(handover) =>
      if s.deployment == Absent && s.pods == 0 then s.(pass := if handover then ClearOwning else Idle)
      else s.(pass := if handover then Idle else LateWriteOwning)
    case LateWriteOwning => s.(owning := true, pass := LateWriteNotOwned)
    case LateWriteNotOwned => s.(owned := false, pass := Idle)
    case ClearOwning => s.(owning := false, pass := WriteOwned)
    case WriteOwned => s.(owned := true, pass := Idle)
    case _ => s
  }

  function Applied(e: Enrolment): Enrolment { if e.Managed? then e.(applied := true) else e }

  function Continue(s: State): State
    requires s.pass != Idle
  {
    match s.pass
    case ReconcileTopology => TopologyReconciled(s)
    case ClearOwned => s.(owned := false, pass := ClearOwningPerDevice)
    case ClearOwningPerDevice => s.(owning := false, pass := ApplyDeployment)
    case ApplyDeployment =>
      s.(deployment := if s.deployment == Absent then Live else s.deployment,
         enrolment := Applied(s.enrolment), pass := Idle)
    case _ => ContinueAggregating(s)
  }

  function Apply(s: State, a: Action): State
    requires Enabled(s, a)
  {
    match a
    case BeginPass => s.(pass := ReconcileTopology)
    case ContinuePass => Continue(s)
    case Enrol => s.(enrolment := Managed(false, false, false), pass := AfterTopology(s))
    case Acknowledge => s.(enrolment := s.enrolment.(session := true))
    case Settle => s.(enrolment := s.enrolment.(session := false))
    case Recover => s.(pass := ApplyDeployment)
    case BeginHandoff => s.(enrolment := Leaving, pass := AfterTopology(s))
    case AbandonPass => s.(pass := Idle)
    case HandoffDone => s.(enrolment := Unmanaged)
    case WorkerAcquires => s.(enrolment := s.enrolment.(held := true))
    case WorkerReleases => s.(enrolment := s.enrolment.(held := false))
    case AggregatorRead => if s.registered && s.GateOpen() then s.(gate := Passed) else s.(worker := false)
    case AggregatorStart => s.(worker := true, gate := Closed)
    case AggregatorGiveUp => s.(gate := Closed)
    case WorkerExit => s.(worker := false)
    case NewReplicaSet => s.(replicaSets := s.replicaSets + 1)
    case NewPod => s.(pods := s.pods + 1)
    case PodGone => s.(pods := s.pods - 1)
    case ReplicaSetGone => s.(replicaSets := s.replicaSets - 1)
    case DeploymentGone => s.(deployment := Absent)
    case DeleteDeployment => s.(deployment := Terminating)
    case Restart(mode, topology) =>
      s.(mode := mode, topology := topology, pass := Idle, gate := Closed, worker := false)
  }

  predicate Runs(s: State, actions: seq<Action>)
    decreases actions
  {
    actions == [] || (Enabled(s, actions[0]) && Runs(Apply(s, actions[0]), actions[1..]))
  }

  function End(s: State, actions: seq<Action>): State
    requires Runs(s, actions)
    decreases actions
  {
    if actions == [] then s else End(Apply(s, actions[0]), actions[1..])
  }

  predicate Initial(s: State) {
    && s.Clear() && !s.owned && !s.owning && s.enrolment == Unmanaged
    && s.pass == Idle && s.gate == Closed && !s.worker
  }

  // ---- Exclusion -----------------------------------------------------------

  predicate PassOK(s: State) {
    match s.pass
    case Idle | ReconcileTopology => true
    case ClearOwned => !s.AggregatorOwnsDriver()
    case ClearOwningPerDevice => !s.AggregatorOwnsDriver() && !s.owned
    case ApplyDeployment => !s.AggregatorOwnsDriver() && !s.GateOpen()
    case ClearOwning | WriteOwned => s.AggregatorOwnsDriver() && !s.enrolment.Managed? && s.Clear()
    case _ => s.AggregatorOwnsDriver() && !s.enrolment.Managed?
  }

  /** A device whose workers were applied under this enrolment keeps the gate shut,
      and a Lease holder or a session needs such workers. */
  predicate EnrolmentOK(s: State) {
    s.enrolment.Managed? ==>
      && (s.enrolment.applied ==> !s.GateOpen())
      && (s.enrolment.held || s.enrolment.session ==> s.enrolment.applied)
  }

  predicate Inv(s: State) {
    && (s.deployment == Absent ==> s.replicaSets == 0)
    && (s.GateOpen() ==> s.Clear())
    && (s.worker || s.gate == Passed ==> s.AggregatorOwnsDriver() && s.Clear())
    && EnrolmentOK(s) && PassOK(s)
  }

  lemma AggregatingPassKeepsInv(s: State)
    requires Inv(s) && s.pass != Idle && s.pass != ReconcileTopology && s.AggregatorOwnsDriver()
    ensures Inv(ContinueAggregating(s)) && Continue(s) == ContinueAggregating(s)
  {
  }

  lemma TopologyKeepsInv(s: State)
    requires Inv(s) && s.pass == ReconcileTopology
    ensures Inv(TopologyReconciled(s))
  {
  }

  lemma PerDevicePassKeepsInv(s: State)
    requires Inv(s) && s.pass != Idle && s.pass != ReconcileTopology && !s.AggregatorOwnsDriver()
    ensures Inv(Continue(s))
  {
  }

  lemma ManagedStepKeepsInv(s: State, a: Action)
    requires Inv(s) && Enabled(s, a)
    requires a in {BeginPass, AbandonPass, Enrol, Acknowledge, Settle, Recover, BeginHandoff, HandoffDone,
                   WorkerAcquires, WorkerReleases}
    ensures Inv(Apply(s, a))
  {
  }

  lemma AggregatorStepKeepsInv(s: State, a: Action)
    requires Inv(s) && Enabled(s, a)
    requires a in {AggregatorRead, AggregatorStart, AggregatorGiveUp, WorkerExit} || a.Restart?
    ensures Inv(Apply(s, a))
  {
  }

  lemma ClusterStepKeepsInv(s: State, a: Action)
    requires Inv(s) && Enabled(s, a)
    requires a in {NewReplicaSet, NewPod, PodGone, ReplicaSetGone, DeploymentGone, DeleteDeployment}
    ensures Inv(Apply(s, a))
  {
  }

  lemma StepKeepsInv(s: State, a: Action)
    requires Inv(s) && Enabled(s, a)
    ensures Inv(Apply(s, a))
  {
    match a
    case ContinuePass =>
      if s.pass == ReconcileTopology {
        TopologyKeepsInv(s);
      } else if s.AggregatorOwnsDriver() {
        AggregatingPassKeepsInv(s);
      } else {
        PerDevicePassKeepsInv(s);
      }
    case BeginPass | AbandonPass | Enrol | Acknowledge | Settle | Recover | BeginHandoff | HandoffDone
         | WorkerAcquires | WorkerReleases => ManagedStepKeepsInv(s, a);
    case AggregatorRead | AggregatorStart | AggregatorGiveUp | WorkerExit | Restart(_, _) =>
      AggregatorStepKeepsInv(s, a);
    case _ => ClusterStepKeepsInv(s, a);
  }

  lemma {:induction false} RunKeepsInv(s: State, actions: seq<Action>)
    requires Inv(s) && Runs(s, actions)
    ensures Inv(End(s, actions))
    decreases actions
  {
    if actions != [] {
      StepKeepsInv(s, actions[0]);
      RunKeepsInv(Apply(s, actions[0]), actions[1..]);
    }
  }

  /** In every interleaving the aggregator's worker and a per-device Pod never
      coexist, nor does the worker run while a Deployment could create one. */
  lemma ConfigWritersExclude(s: State, actions: seq<Action>)
    requires Initial(s) && Runs(s, actions)
    ensures End(s, actions).worker ==> End(s, actions).Clear()
    ensures End(s, actions).pods > 0 ==> !End(s, actions).worker && End(s, actions).gate == Closed
  {
    RunKeepsInv(s, actions);
  }

  /** The recovery pass may skip the clearing: in every reachable state in which it
      can be taken the aggregator's gate is already shut. */
  lemma RecoveryFindsGateShut(s: State, actions: seq<Action>)
    requires Initial(s) && Runs(s, actions) && End(s, actions).RecoveryReady()
    ensures !End(s, actions).GateOpen() && !End(s, actions).worker
  {
    RunKeepsInv(s, actions);
  }

  lemma {:induction false} Extend(s: State, actions: seq<Action>, a: Action)
    requires Runs(s, actions) && Enabled(End(s, actions), a)
    ensures Runs(s, actions + [a]) && End(s, actions + [a]) == Apply(End(s, actions), a)
    decreases actions
  {
    if actions == [] {
      assert [a][1..] == [] && actions + [a] == [a];
    } else {
      assert (actions + [a])[1..] == actions[1..] + [a];
      Extend(Apply(s, actions[0]), actions[1..], a);
    }
  }

  lemma {:induction false} PassRunsOut(s: State, prefix: seq<Action>, left: nat) returns (actions: seq<Action>)
    requires Runs(s, prefix) && Inv(End(s, prefix)) && End(s, prefix).AggregatorOwnsDriver()
    requires End(s, prefix).Clear() && End(s, prefix).gate == Closed
    requires
      var here := End(s, prefix);
      match here.pass
      case WriteOwning(stale) => !stale && left == 4
      case WriteNotOwned(stale) => !stale && left == 3
      case CheckQuiesced(handover) => handover && left == 2
      case ClearOwning => left == 1
      case WriteOwned => !here.owning && left == 0
      case _ => false
    ensures Runs(s, actions) && End(s, actions).GateOpen() && End(s, actions).registered
    ensures End(s, actions).mode == Aggregating && End(s, actions).gate == Closed
    decreases left
  {
    Extend(s, prefix, ContinuePass);
    StepKeepsInv(End(s, prefix), ContinuePass);
    actions := prefix + [ContinuePass];
    if left > 0 { actions := PassRunsOut(s, actions, left - 1); }
  }

  lemma ApplyRuns(s: State, prefix: seq<Action>) returns (actions: seq<Action>)
    requires Runs(s, prefix) && End(s, prefix).pass == ClearOwned && End(s, prefix).deployment == Absent
    ensures Runs(s, actions)
    ensures
      var here := End(s, prefix);
      End(s, actions) == here.(owned := false, owning := false, deployment := Live,
                               enrolment := Applied(here.enrolment), pass := Idle)
  {
    Extend(s, prefix, ContinuePass);
    actions := prefix + [ContinuePass];
    Extend(s, actions, ContinuePass);
    actions := actions + [ContinuePass];
    Extend(s, actions, ContinuePass);
    actions := actions + [ContinuePass];
  }

  lemma FirstPass(s: State) returns (actions: seq<Action>)
    requires Initial(s) && s.mode == PerDevice && s.topology
    ensures Runs(s, actions)
    ensures End(s, actions) == s.(enrolment := Managed(true, false, false), deployment := Live)
  {
    assert Runs(s, []);
    Extend(s, [], BeginPass);
    Extend(s, [BeginPass], Enrol);
    actions := ApplyRuns(s, [BeginPass] + [Enrol]);
  }

  /** Such states do occur: a worker applied by the first pass takes the Lease,
      and an acknowledged session makes the next pass a recovery. */
  lemma RecoveryReachable(s: State) returns (actions: seq<Action>)
    requires Initial(s) && s.mode == PerDevice && s.topology
    ensures Runs(s, actions) && End(s, actions).RecoveryReady()
  {
    actions := FirstPass(s);
    Extend(s, actions, WorkerAcquires);
    Extend(s, actions + [WorkerAcquires], BeginPass);
    Extend(s, actions + [WorkerAcquires] + [BeginPass], Acknowledge);
    actions := actions + [WorkerAcquires] + [BeginPass] + [Acknowledge];
  }

  /** The handover completes: in aggregator mode, once the per-device workload is
      gone, one undisturbed pass opens the gate and the worker starts. */
  lemma HandoverCompletes(s: State) returns (actions: seq<Action>)
    requires Inv(s) && s.AggregatorOwnsDriver() && s.Clear() && !s.enrolment.Managed?
    requires s.pass == Idle && s.gate == Closed && !s.GateOpen()
    ensures Runs(s, actions) && End(s, actions).worker && End(s, actions).GateOpen()
  {
    assert Runs(s, []);
    Extend(s, [], BeginPass);
    Extend(s, [BeginPass], ContinuePass);
    Extend(s, [BeginPass] + [ContinuePass], ContinuePass);
    RunKeepsInv(s, [BeginPass] + [ContinuePass] + [ContinuePass]);
    actions := PassRunsOut(s, [BeginPass] + [ContinuePass] + [ContinuePass], 4);
    Extend(s, actions, AggregatorRead);
    Extend(s, actions + [AggregatorRead], AggregatorStart);
    actions := actions + [AggregatorRead] + [AggregatorStart];
  }
}
