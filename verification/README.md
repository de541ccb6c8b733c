# Writer hand-over, placement and identity in the Cisco virtual kubelet manager

A Dafny model of the part of the manager that decides who may write to a network
device and where its workloads go. Each module follows one source file or one
protocol inside a file, and proves what that code keeps over every input, every
update sequence or every interleaving.

Conventions.

- A protocol is a state machine: each persisted write, each read that gates one and
  each cluster event is one step. An attempt may stop between any two steps.
- Status is always present. A validation rule that mentions the old value applies
  only when both the old and the new value exist.
- SHA-256 over JSON is a function parameter; reads of the API server, clocks and
  the outcome of API calls are parameters too.
- Resource quantities are natural numbers of nano-units and times are integers.

What turned out not to hold as documented is stated with the exact condition:

- a maintenance token can be reused for another operation exactly after settlement,
  and for another holder exactly then or by the one promotion
  (`MaintenanceSession.TokenReuseAcceptedExactly`,
  `MaintenanceSession.LaterHolderAcceptedExactly`), although the field's documentation
  says it must not be;
- defaulting a PodTemplate is idempotent exactly when no volume has two sources
  without a mode (`PodTemplate.DefaultingIdempotentExactly`);
- a rendered admission template normalises to the compiled contract exactly when no
  fixed literal is spelled like a bound identity that is not its own token and no
  quoted identity needs an escape (`AdmissionContract.RenderedTemplateNormalizes`,
  `AdmissionContract.ClashExample`); the chart's own literals never clash
  (`AdmissionContract.ChartVocabularyNeverClashes`). Normalising is idempotent exactly
  when no binding equals the token of another that a literal can spell
  (`AdmissionContract.IdempotentExactly`);
- the log budget's window bound holds unless a call reads a time before a refill that
  an earlier call made, which can happen because the clock is read before the lock is
  taken (`InfoBucket.WindowAdmitsAtMostTwice`). Such a reading lets every budget above
  one per second exceed the bound, and a budget of one per second never does
  (`InfoBucket.StaleReadingExceedsTwice`, `InfoBucket.BoundOnEveryClockExactly`);
- with Leases retained in a former namespace a device can have several mutation Leases
  (`ManagedLeases.TwoFencesExample`). "Mutation last" then means after every Lease of
  another purpose, and the mutation Lease is the very last one exactly when it is the
  only one (`ManagedLeases.FenceLastExactly`).

## Model

| member | source | states |
|---|---|---|
| DeviceStatus.ReleaseExactlyAtSharedWriterStep | api/v1alpha1/types.go:327-329 | an accepted update clears the managed Node identity if and only if it moves the handoff from LegacyWriterPending to SharedWriterPending |
| DeviceStatus.RegainExactlyByDroppingComplete | api/v1alpha1/types.go:327-329 | an enrolled device stays enrolled, and an unbound one is bound again if and only if the update drops a Complete handoff |
| DeviceStatus.FullHandoffBetweenBindings | api/v1alpha1/types.go:85 | in every run from a new object two different Node bindings have one handoff record between them that passes through all four phases in order, with the first Node bound through the first two and none through the last two |
| DeviceStatus.HandoffBegan | api/v1alpha1/types.go:488-489 | every handoff record goes back without a gap and with unchanged identity to a Preparing state |
| DeviceStatus.HandoffCompletes | api/v1alpha1/types.go:489 | a record that released the Node reaches Complete, unbound throughout, before any new binding |
| DeviceStatus.BindingsShareIdentity | api/v1alpha1/types.go:84 | all bindings of one device, across any number of handoffs, carry the same physical identity |
| MaintenanceSession.SessionEvolves | api/v1alpha1/types.go:1060-1072 | between any two states of an unsettled session identity, Lease object, request and acknowledgement times and protocol are equal, control revision and phase never fall, and purpose and holder change only together |
| MaintenanceSession.PromotedAtMostOnce | api/v1alpha1/types.go:1065-1069 | purpose and holder change at most once, from the drain forms to the mutation forms, and never back |
| MaintenanceSession.DrainSettlesThroughRecovering | api/v1alpha1/types.go:1073 | a pdb-drain-v1 session reaches Settled only out of Recovering, and a session without a protocol never enters Recovering |
| MaintenanceSession.TokenReuseAcceptedExactly | api/v1alpha1/types.go:1060-1073 | a token is accepted for another operation if and only if the old session is settled and the control revision does not fall |
| MaintenanceSession.LaterHolderAcceptedExactly | api/v1alpha1/types.go:1060-1073 | a later holder of a token is accepted if and only if the control revision does not fall and the old session is settled or the update is the exact drain-to-mutation promotion of the same session |
| MaintenanceSession.TokenReuseExample | api/v1alpha1/types.go:1088-1094 | an accepted update that reuses a settled token for another operation and holder |
| PhysicalIdentity.CanonicalIgnoresCase | internal/topologyidentity/physical_identity.go:28-47 | spellings that differ in case share one canonical form, which is a fixed point |
| PhysicalIdentity.Indexed | internal/controller/managed_physical_identity.go:108-118 | the index returns exactly the listed devices whose canonical identity is the key |
| PhysicalIdentity.IndexedLookupAgreesWithScan | internal/controller/managed_physical_identity.go:145-182 | the indexed peer lookup and the full scan give the same duplicate verdict on one inventory |
| PhysicalIdentity.FindConflict | internal/controller/managed_physical_identity.go:162-181 | the loop finds a peer if and only if a managed peer shares the identity |
| PhysicalIdentity.ValidateManagedPhysicalIdentity | internal/controller/managed_physical_identity.go:126-183 | success if and only if the device is admissible and no listed managed peer shares its canonical identity; a refusal as duplicate names such a peer |
| PhysicalIdentity.FleetDeduplicated | internal/controller/managed_physical_identity.go:120-125 | in every run, with any writes between a device's scan and its binding, no two devices that hold a Node identity or a handoff share a canonical identity, and what the scan found still holds when the binding is written |
| PhysicalIdentity.BindingsDistinctFleetWide | internal/controller/managed_physical_identity.go:171-176 | in every reachable fleet bindings of different devices carry different identities, each the canonical form of its own declaration |
| Aggregator.AggregatedReconciler.StartWorker | internal/aggregator/aggregator.go:261-352 | a started worker is registered under its key with its hash; a failed start changes nothing |
| Aggregator.AggregatedReconciler.StopWorker | internal/aggregator/aggregator.go:390-401 | the key's worker is removed and cancelled and no other worker is |
| Aggregator.AggregatedReconciler.Reconcile | internal/aggregator/aggregator.go:166-245 | after a pass that read the device the key has a worker only if it is owned, not in handover and registered, with the current spec hash; a failed read or credential changes nothing, and other devices are untouched |
| Aggregator.AggregatedReconciler.Serve | internal/aggregator/aggregator.go:166-245 | over any sequence of passes a worker runs for a key only if some pass saw the device owned with that worker's configuration and no later pass saw it otherwise, and no key has two uncancelled workers |
| Aggregator.AggregatedReconciler.AtMostOneLiveWorker | internal/aggregator/aggregator.go:79-88 | at most one uncancelled worker exists per device key and it is in the managed map |
| Handover.ConfigWritersExclude | internal/controller/ciscodevice_controller.go:578-647 | in every interleaving with crashes, restarts, mode changes, enrolment and maintenance recovery a running aggregator worker implies that no per-device Deployment, ReplicaSet or Pod exists |
| Handover.StepKeepsInv | internal/controller/ciscodevice_controller.go:713-717 | every step of either reconciler and of the cluster keeps: an open gate, a passed gate, a running worker and a finished quiescence check each imply no per-device workload, and workers applied under an enrolment keep the gate shut |
| Handover.RecoveryFindsGateShut | internal/controller/managed_maintenance.go:337-363 | in every reachable state in which a maintenance-recovery pass may skip the clearing, the aggregator's gate is already shut and no aggregator worker runs |
| Handover.RecoveryReachable | internal/controller/managed_topology.go:299-322 | such states are reachable from a new device |
| Handover.HandoverCompletes | internal/controller/ciscodevice_controller.go:628-647 | once the workload is gone one undisturbed pass opens the gate and the worker starts |
| StaleAncestors.StaleAncestorUIDs | internal/controller/ciscodevice_controller.go:2891-2915 | the fixpoint loop terminates with exactly the Deployment UID and the ReplicaSets reachable by owner chains |
| StaleAncestors.PerDevicePodsQuiesced | internal/controller/ciscodevice_controller.go:2879-2933 | the stale Pods are reported in order, and quiescence holds if and only if there are none and the Deployment is gone |
| StaleAncestors.StalePodsExact | internal/controller/ciscodevice_controller.go:2921-2958 | a Pod is reported if and only if it is listed and label-matched or tied to the Deployment by an owner chain |
| WorkerRevision.ObserveManagedWorkerRevision | internal/controller/ciscodevice_controller.go:3732-3839 | evidence is ready if and only if the sole owned Pod is live, built from the stamped and recomputed revision, and its worker reported that revision no earlier than the Pod's start; ready evidence names that Pod |
| WorkerRevision.FindSolePod | internal/controller/ciscodevice_controller.go:3793-3813 | a Pod is selected only if it is the single owned one and not terminating |
| WorkerRevision.ManagedWorker.ReconcilePass | internal/controller/ciscodevice_controller.go:1117-1137 | an undisturbed pass either fences the status and leaves the template, or applies the revision and leaves the status |
| WorkerRevision.TemplateMovesOnlyWhenFenced | internal/controller/ciscodevice_controller.go:1117-1137 | in every run, with deletions and crashes between any two reads and writes, an existing Deployment moves to revision r only when status already desires r and holds no ready evidence for that Deployment |
| WorkerRevision.ReadyEvidenceMatchesDeployment | internal/controller/ciscodevice_controller.go:3576-3603 | at no point does ready evidence name a Deployment that carries another revision |
| WorkerRevision.RecordedEvidenceWasProven | internal/controller/ciscodevice_controller.go:3676-3694 | in every run recorded ready evidence goes back to states of the cluster, in order, that held the named Deployment with its revision, a Node that reported it, and the named Pod as the sole owned, live and ready one, started no later than the recorded heartbeat |
| WorkerRevision.SecondPassRollsOut | internal/controller/ciscodevice_controller.go:1179-1192 | two undisturbed passes bring the Deployment to the desired revision |
| PodTemplate.Object.ApplyDefaults | internal/controller/ciscodevice_controller.go:2513-2606 | updates the template in place to its defaulted form |
| PodTemplate.Object.Revision | internal/controller/ciscodevice_controller.go:2488-2507 | hashes the defaulted template without its two revision carriers and leaves the object alone |
| PodTemplate.DefaultingFillsExactlyTheGaps | internal/controller/ciscodevice_controller.go:2513-2606 | a template with nothing unset is unchanged, and a defaulted one has nothing unset if and only if no volume had two sources without a mode |
| PodTemplate.DefaultingIdempotentExactly | internal/controller/ciscodevice_controller.go:2586-2598 | defaulting twice equals defaulting once if and only if no volume has two sources without a mode |
| PodTemplate.CanonicalSurvivesDefaultingExactly | internal/controller/ciscodevice_controller.go:2509-2512 | the hashed form survives defaulting under exactly the same condition |
| PodTemplate.CanonicalIgnoresCarriers | internal/controller/ciscodevice_controller.go:2484-2500 | injecting any revision into the annotation and the variable leaves the hashed form unchanged |
| PodTemplate.RecomputedRevisionIsInjected | internal/controller/ciscodevice_controller.go:3751-3760 | the live defaulted and stamped template has the hashed form, and so recomputes the injected revision, if and only if the volumes of the hashed template settle |
| PodTemplate.TwiceDefaultedSettlesExactly | internal/controller/ciscodevice_controller.go:1077-1116 | after the two defaulting calls before the hash volumes settle if and only if none was rendered with all four sources and no mode |
| SignerLifecycle.RenderedProjectsExactly | internal/controller/ciscodevice_controller.go:1023-1052 | a rendered template is detected as projecting the private key if and only if provisioning writes are enabled |
| SignerLifecycle.DeploymentObject.MutateAppDeployment | internal/controller/ciscodevice_controller.go:783-877 | the closure updates replica count, strategy, annotation and template in place as the step function says, with completeness judged at one replica |
| SignerLifecycle.ReconcileKeepsInv | internal/controller/ciscodevice_controller.go:794-827 | a reconcile keeps: without the lifecycle annotation and with a clean template no Pod has or can get the signer |
| SignerLifecycle.RollingUpdateOnlyWithoutSigner | internal/controller/ciscodevice_controller.go:858-865 | in every run, whenever RollingUpdate is written, no running Pod comes from a projecting template and none can be started from one |
| SignerLifecycle.NewDeploymentSatisfiesInv | internal/controller/ciscodevice_controller.go:783-802 | a Deployment the controller creates starts inside the invariant |
| SignerLifecycle.CleanupReturnsToRollingUpdate | internal/controller/ciscodevice_controller.go:4002-4019 | with writes off, a complete rollout of the clean template returns to RollingUpdate and drops the annotation |
| ManagedLeases.MutationLeasesLast | internal/controller/managed_leases.go:462-476 | the deletion order is a permutation of the candidates in which no other purpose follows a mutation Lease |
| ManagedLeases.FenceLastExactly | internal/controller/managed_leases.go:462-476 | no mutation Lease precedes another candidate in the deletion order if and only if the candidates hold at most one |
| ManagedLeases.TwoFencesExample | internal/controller/managed_leases.go:386-389 | for every binding and any two namespaces there are two mutation Leases that validate, and one is deleted before the other |
| ManagedLeases.LeaseStore.SelectCandidates | internal/controller/managed_leases.go:411-461 | succeeds if and only if every Lease of the device validates, with exactly those Leases |
| ManagedLeases.LeaseStore.CleanupManagedWorkerLeases | internal/controller/managed_leases.go:390-487 | deletes nothing unless the whole set validated, and otherwise a prefix of the deletion order, all of it on success |
| DeviceDeletion.DeletionEffectsOrdered | internal/controller/ciscodevice_controller.go:342-391 | in every crash-and-retry run access is revoked before any Lease goes, a Lease goes only while all remaining ones validate, a mutation fence after all other purposes and with nothing remaining if and only if it is the only one, the Node after the Leases and the finalizer last |
| DeviceDeletion.SoleFenceDeletedLast | internal/controller/managed_leases.go:458-476 | in every run an attempt that listed a single mutation Lease leaves no Lease of the device when it deletes it |
| DeviceDeletion.RetryPassesSettledCheck | internal/controller/ciscodevice_controller.go:2685-2706 | wherever an attempt stopped, the next one passes the settled check when the other authorities are idle |
| DeviceDeletion.AttemptCanFinish | internal/controller/ciscodevice_controller.go:359-391 | from every reachable state one more attempt can finish: no Lease, no Node, no finalizer |
| DrainCapacity.DrainPodRequests | internal/controller/iosxesoftwarerollout_placement.go:313-348 | the map loops compute the request list of a Pod |
| DrainCapacity.PodRequestsAt | internal/controller/iosxesoftwarerollout_placement.go:313-348 | of each resource a Pod requests max(max(sum of containers, largest init) + overhead, pod level), and exactly which resources it mentions |
| DrainCapacity.DrainNodeHasCapacity | internal/controller/iosxesoftwarerollout_placement.go:350-381 | accepted if and only if for each requested resource usage plus request fits allocatable and the Pod count fits |
| DrainCapacity.CapacityForgetsOrder | internal/controller/iosxesoftwarerollout_placement.go:350-365 | the capacity verdict is the same for every order of the Pods |
| DrainCapacity.CapacityFromNodeIndex | internal/controller/iosxesoftwarerollout_placement.go:153-159 | the node-indexed list and the list of all Pods give the same verdict |
| DrainSpread.MergedKeysExactly | internal/controller/iosxesoftwarerollout_placement.go:402-414 | merging the match-label keys is refused if and only if a key is selected on already or repeats with a value on the Pod |
| DrainSpread.MergedContents | internal/controller/iosxesoftwarerollout_placement.go:402-414 | a merge keeps what was selected, adds exactly the Pod's value of each key it has and nothing else |
| DrainSpread.BuildSelector | internal/controller/iosxesoftwarerollout_placement.go:398-418 | the effective selector or its error, with a key given twice refused |
| DrainSpread.CollectDomains | internal/controller/iosxesoftwarerollout_placement.go:419-441 | the collected domains are exactly those an eligible Node offers, and the name index finds the Node of a name |
| DrainSpread.CountPods | internal/controller/iosxesoftwarerollout_placement.go:445-462 | each eligible domain is counted as the number of its matching scheduled Pods |
| DrainSpread.Minimum | internal/controller/iosxesoftwarerollout_placement.go:463-474 | the sentinel loop yields the least count, or zero without domains |
| DrainSpread.CheckConstraint | internal/controller/iosxesoftwarerollout_placement.go:389-477 | one constraint passes if and only if the candidate's domain is eligible and its count plus one exceeds the minimum, zero below minDomains, by at most maxSkew |
| DrainSpread.CountsFit32 | internal/controller/iosxesoftwarerollout_placement.go:445-477 | for fewer Pods and Nodes than a 32-bit count can hold, every sum, difference and domain count of the skew rule stays within 32 bits |
| DrainSpread.DrainTopologySpreadAllows | internal/controller/iosxesoftwarerollout_placement.go:383-480 | true if and only if every hard constraint passes, false if and only if the first that does not is refused, and otherwise its error |
| DrainSpread.AllowedPlacementKeepsSkew | internal/controller/iosxesoftwarerollout_placement.go:475-477 | an allowed placement keeps the skew bound of every hard constraint that held |
| DrainSpread.PlacementsKeepSkew | internal/controller/iosxesoftwarerollout_placement.go:475-477 | so does every sequence of allowed placements |
| DrainFeasibility.ValidateDrainPlacementFeasibility | internal/controller/iosxesoftwarerollout_placement.go:126-169 | nil for a soft placement, and otherwise if and only if the hash is unchanged, the reads succeed and a feasible Node comes before the first failing one |
| DrainFeasibility.SearchSucceedsExactly | internal/controller/iosxesoftwarerollout_placement.go:148-168 | without read errors and malformed selectors, success if and only if another Node is Ready, schedulable, selected, tolerated, has capacity and is allowed by spread over all Pods |
| Activation.CollectReceipts | internal/controller/iosxesoftwarerollout_activation.go:129-141 | succeeds if and only if every receipt is complete and no device repeats |
| Activation.ValidateActivationApproval | internal/controller/iosxesoftwarerollout_activation.go:104-207 | success if and only if inputs, receipts and every target's prepared leaf match, with the authorization they determine |
| Activation.ApprovalForgetsReceiptOrder | internal/controller/iosxesoftwarerollout_activation.go:178-206 | every permutation of the receipts is approved alike and yields the same authorization and hash |
| Activation.ApprovedDevicesAreTargets | api/ops/v1alpha1/iosxesoftwarerollout_types.go:861-867 | an approval of a stored plan, whose targets are keyed by device UID, names every target device exactly once and no other device |
| Activation.EqualSetsExactlyWithListKey | internal/controller/iosxesoftwarerollout_activation.go:124-147 | the named and the planned devices are the same set if and only if the plan keeps that list key |
| Activation.EachDeviceItsOwnLeaf | internal/controller/iosxesoftwarerollout_activation.go:148-176 | different devices are bound to different prepared leaves, each with its own device's receipt |
| Activation.Annotations.ApplyActivation | internal/controller/iosxesoftwarerollout_activation.go:37-60 | writes exactly the six annotations of an authorized device and otherwise nothing |
| Activation.ValidateActivationLeafAnnotations | internal/controller/iosxesoftwarerollout_activation.go:62-80 | accepts a leaf if and only if it carries the six annotations of that device |
| Activation.StampedLeafValidatesExactly | internal/controller/iosxesoftwarerollout_activation.go:37-80 | a leaf stamped for one device of the plan validates for that device and for no other |
| AdmissionContract.NormalizeManagedAdmissionCELLiterals | cmd/cisco-vk/managed_topology_preflight.go:610-667 | the scan terminates on every string and computes the token-wise rewriting |
| AdmissionContract.UnparseTokens | cmd/cisco-vk/managed_topology_preflight.go:627-653 | the scanned tokens spell the expression byte for byte |
| AdmissionContract.TokensUnparse | cmd/cisco-vk/managed_topology_preflight.go:635-664 | every well-formed token sequence is what its spelling scans to |
| AdmissionContract.NormalizedRewritesOnlyMatches | cmd/cisco-vk/managed_topology_preflight.go:654-664 | the result scans to the input's tokens with only exactly matching literals rewritten |
| AdmissionContract.ValidateBindings | cmd/cisco-vk/managed_topology_preflight.go:483-505 | succeeds if and only if no binding is blank and all are distinct |
| AdmissionContract.RenderedTemplateNormalizes | cmd/cisco-vk/managed_topology_preflight.go:567-578 | a template rendered with valid bindings normalises to its token form if and only if no fixed literal is spelled like a binding that is not its own token and no binding it quotes needs an escape |
| AdmissionContract.ChangedExactlyWhenClashing | cmd/cisco-vk/managed_topology_preflight.go:600-625 | the rewriter changes a literal if and only if it is double-quoted and spelled like a binding, or single-quoted and spelled like a colon and a worker account, other than its own token |
| AdmissionContract.ClashExample | cmd/cisco-vk/managed_topology_preflight.go:654-660 | one fixed literal spelled like an account suffix, which normalises to something other than the contract |
| AdmissionContract.SameContractForAllBindings | cmd/cisco-vk/managed_topology_preflight.go:538-542 | given one installation of a template without clash and escape, another has the same normalised expression if and only if it has none either |
| AdmissionContract.ChartVocabularyNeverClashes | charts/cisco-virtual-kubelet/templates/topology-admission.yaml:251-257 | no literal of the chart's forms, the account prefix ending in a hyphen and the pattern ending in a dollar sign included, is spelled like a Kubernetes name or a colon and an account name |
| AdmissionContract.IdempotentExactly | cmd/cisco-vk/managed_topology_preflight.go:610-667 | normalising is idempotent on every expression if and only if no binding equals the token of another binding that a literal can spell |
| PlanningSnapshot.NewPlanningWorkerSnapshot | internal/controller/rollout_planning_snapshot.go:31-64 | a snapshot of exactly the four lists, or an error |
| PlanningSnapshot.PlanningWorkerSnapshot.Get | internal/controller/rollout_planning_snapshot.go:66-106 | answers as the frozen reader and writes only the caller's object |
| PlanningSnapshot.PlanningWorkerSnapshot.List | internal/controller/rollout_planning_snapshot.go:108-126 | answers as the frozen reader with fresh copies in order |
| PlanningSnapshot.ScribblingSession | internal/controller/rollout_planning_snapshot.go:66-126 | for every request sequence, with everything handed over overwritten, each reply is the frozen reader's |
| InfoBucket.ControllerInfoBucket.Allow | cmd/cisco-vk/controller_logger.go:167-183 | the new state and the decision of one call, always admitted when disabled |
| InfoBucket.TokensStayInRange | cmd/cisco-vk/controller_logger.go:167-183 | tokens stay between zero and capacity over every run, on any clock |
| InfoBucket.EpochAdmitsFirstTokens | cmd/cisco-vk/controller_logger.go:174-182 | until the next refill exactly the first calls, as many as there are tokens, are admitted |
| InfoBucket.RefillAdmitsUpToCapacity | cmd/cisco-vk/controller_logger.go:174-182 | between consecutive refills exactly the first min(calls, capacity) calls are admitted |
| InfoBucket.WindowAdmitsAtMostTwice | cmd/cisco-vk/controller_logger.go:145-147 | any half-open one-second window admits at most twice the capacity, unless a call reads a time before a refill that an earlier call of the run made |
| InfoBucket.NeverStaleOvertakesNone | cmd/cisco-vk/controller_logger.go:171-177 | for that it is enough that no call reads a time before the last refill |
| InfoBucket.OrderedOvertakesNone | cmd/cisco-vk/controller_logger.go:171-177 | and it is enough that the readings come in order |
| InfoBucket.TwiceIsAttained | cmd/cisco-vk/controller_logger.go:174-182 | the bound is attained for every capacity |
| InfoBucket.StaleReadingExceedsTwice | cmd/cisco-vk/controller_logger.go:171-173 | for every capacity above one a run with one delayed reading admits one more than twice the capacity in a window |
| InfoBucket.SingleTokenBound | cmd/cisco-vk/controller_logger.go:174-182 | with a capacity of one a window admits at most the token in hand and one refill, on any clock |
| InfoBucket.BoundOnEveryClockExactly | cmd/cisco-vk/controller_logger.go:145-147 | the bound holds for every state, run and window on every clock if and only if the capacity is one |

## Left out

- Handover.ConfigWritersExclude: assumes a fixed driver, fresh reads, foreground deletion, that only this controller creates the per-device Deployment, that a mutation Lease is held only by a worker a pass has applied, and that the mode changes only by a manager restart, which ends in-process workers; a cancelled worker that is still finishing is not counted, and the separate network worker of a device leaving managed topology is not a writer here.
- DrainSpread.DrainTopologySpreadAllows: counts are unbounded integers, which differ from the source's 32-bit ones only for lists of 2^31 - 1 or more objects (`DrainSpread.CountsFit32`); the library's check of label spelling is one Boolean of the selector.
- SignerLifecycle.RollingUpdateOnlyWithoutSigner: takes a complete rollout to mean that all Pods run the current template, and starts from a Deployment inside the invariant, which every Deployment the controller creates satisfies.
- WorkerRevision.TemplateMovesOnlyWhenFenced: covers the app worker; the network worker's fence has the same shape. Nobody else edits the Deployment's template, and the Node and Lease binding cleanup inside the fence is not modelled.
- PodTemplate.RecomputedRevisionIsInjected: the API server is taken to default as this function does.
- PhysicalIdentity.FleetDeduplicated: one elected manager, whose passes follow each other; two managers binding at once are not modelled.
- DeviceDeletion.DeletionEffectsOrdered: quiescing workers, retiring prior access and the prerequisite teardown are abstract steps with their documented effect; the legacy and phase-zero deletion branches are not modelled.
- ManagedLeases.LeaseStore.CleanupManagedWorkerLeases: nothing else changes the Leases during the call; canonical Lease names are a function parameter.
- AdmissionContract.RenderedTemplateNormalizes: the two account names do not end or escape the single-quoted literal the chart writes them into unescaped; of Helm's quoting only the escapes of double quotes and backslashes are modelled.
- PlanningSnapshot.NewPlanningWorkerSnapshot: the API server's lists hold one namespace and no repeated key.
- Creating, adopting and repairing Leases (`ensureManagedBoundLease`, `repairManagedLeaseBindings`): one-pass metadata comparisons.
- The topology lock: its two rules are immutability and a single phase change.
- The worker ServiceAccount policy epoch, activation child names and requeue intervals: short computations.
- Live physical-identity observation of a Node: a finite case split.
- The mutation-worker annotation of the Deployment: the same lifecycle as the signer's, tied to the driver in use.
- Client plumbing, watches, events, tracing, metrics, manager start-up, TLS and Secret parsing, gNOI options and the drain final proof.
