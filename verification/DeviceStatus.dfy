/** The CiscoDevice validation rules that govern the managed Node identity and
    the legacy writer handoff. An accepted update is a pair of device values
    that satisfies `StepOK`; a rule that mentions the old value applies only
    when both the old and the new value exist. */
module DeviceStatus {
  import opened Wrappers
  import Text

  datatype NodeIdentity = NodeIdentity(nodeName: string, nodeUID: string, deviceUID: string, physicalIdentity: string)

  datatype HandoffPhase = Preparing | LegacyWriterPending | SharedWriterPending | Complete

  /** The fields of a handoff record that no update may change. */
  datatype HandoffIdentity = HandoffIdentity(
    deviceUID: string, nodeName: string, nodeUID: string,
    projectionHash: string, legacyWorkerUsername: string, requestedAt: int)

  datatype LegacyHandoff = LegacyHandoff(
    phase: HandoffPhase, identity: HandoffIdentity,
    nodeReleasedAt: Option<int>, isolatedReadyAt: Option<int>, completedAt: Option<int>)

  /** Of the projection, health and worker evidence only the presence is constrained. */
  datatype Status = Status(
    nodeIdentity: Option<NodeIdentity>, legacyHandoff: Option<LegacyHandoff>,
    topologyProjection: bool, healthObservation: bool, workerRevision: bool, networkWorkerRevision: bool)

  datatype Device = Device(physicalIdentity: Option<string>, status: Status) {
    predicate Bound() { status.nodeIdentity.Some? }

    predicate InHandoff() { status.legacyHandoff.Some? }

    predicate InPhase(phase: HandoffPhase) { InHandoff() && status.legacyHandoff.value.phase == phase }

    /** The device holds a Node identity or retains a handoff record. */
    predicate Enrolled() { Bound() || InHandoff() }
  }

  predicate Released(phase: HandoffPhase) { phase == SharedWriterPending || phase == Complete }

  // ---- Rules over one value ------------------------------------------------

  predicate HandoffStateOK(h: LegacyHandoff) {
    && h.nodeReleasedAt.Some? == (h.phase != Preparing)
    && h.isolatedReadyAt.Some? == Released(h.phase)
    && h.completedAt.Some? == (h.phase == Complete)
    && (h.nodeReleasedAt.Some? ==> h.nodeReleasedAt.value >= h.identity.requestedAt)
    && (h.isolatedReadyAt.Some? ==> h.nodeReleasedAt.Some? && h.isolatedReadyAt.value >= h.nodeReleasedAt.value)
    && (h.completedAt.Some? ==> h.isolatedReadyAt.Some? && h.completedAt.value >= h.isolatedReadyAt.value)
  }

  predicate StatusStateOK(s: Status) {
    s.legacyHandoff.Some? ==>
      && HandoffStateOK(s.legacyHandoff.value)
      && if Released(s.legacyHandoff.value.phase) then
           s.nodeIdentity.None? && !s.topologyProjection && !s.healthObservation
           && !s.workerRevision && !s.networkWorkerRevision
         else
           s.nodeIdentity.Some? && s.topologyProjection
  }

  predicate StateOK(d: Device) {
    && StatusStateOK(d.status)
    && (d.Bound() ==>
          d.physicalIdentity.Some?
          && d.status.nodeIdentity.value.physicalIdentity == Text.LowerAscii(d.physicalIdentity.value))
  }

  // ---- Rules over an old and a new value -----------------------------------

  predicate PhaseAdvances(old': HandoffPhase, new': HandoffPhase) {
    match old'
    case Preparing => new' == Preparing || new' == LegacyWriterPending
    case LegacyWriterPending => new' == LegacyWriterPending || new' == SharedWriterPending
    case SharedWriterPending => new' == SharedWriterPending || new' == Complete
    case Complete => new' == Complete
  }

  predicate HandoffStepOK(a: LegacyHandoff, b: LegacyHandoff) {
    a.identity == b.identity && PhaseAdvances(a.phase, b.phase)
  }

  predicate StatusStepOK(a: Status, b: Status) {
    && (a.legacyHandoff.Some? && b.legacyHandoff.None? ==>
          a.legacyHandoff.value.phase == Complete && b.nodeIdentity.Some?)
    && (a.nodeIdentity.Some? && b.nodeIdentity.None? ==>
          b.legacyHandoff.Some? && Released(b.legacyHandoff.value.phase))
    && (a.nodeIdentity.Some? && b.nodeIdentity.Some? ==> a.nodeIdentity == b.nodeIdentity)
    && (a.legacyHandoff.Some? && b.legacyHandoff.Some? ==>
          HandoffStepOK(a.legacyHandoff.value, b.legacyHandoff.value))
  }

  predicate StepOK(a: Device, b: Device) {
    && StateOK(b)
    && StatusStepOK(a.status, b.status)
    && (a.physicalIdentity.Some? ==> b.physicalIdentity == a.physicalIdentity)
    && (b.InHandoff() && !a.InHandoff() ==> b.InPhase(Preparing))
  }

  // ---- Runs ----------------------------------------------------------------

  /** A new object: status is a subresource, so creation stores none. */
  predicate Fresh(d: Device) { !d.Bound() && !d.InHandoff() }

  ghost predicate Run(r: seq<Device>) {
    && |r| > 0
    && Fresh(r[0])
    && (forall i :: 0 <= i < |r| ==> StateOK(r[i]))
    && (forall i, j {:trigger StepOK(r[i], r[j])} :: 0 <= i < j < |r| && j == i + 1 ==> StepOK(r[i], r[j]))
  }

  /** A binding is released exactly by the step into SharedWriterPending. */
  lemma ReleaseExactlyAtSharedWriterStep(a: Device, b: Device)
    requires StateOK(a) && StepOK(a, b)
    ensures a.Bound() && !b.Bound() <==> a.InPhase(LegacyWriterPending) && b.InPhase(SharedWriterPending)
  {
  }

  /** Once enrolled, a device stays enrolled, and an unbound one regains a
      binding exactly by the step that drops a Complete handoff. */
  lemma RegainExactlyByDroppingComplete(a: Device, b: Device)
    requires StateOK(a) && StepOK(a, b) && a.Enrolled()
    ensures b.Enrolled()
    ensures !a.Bound() && b.Bound() <==> a.InPhase(Complete) && !b.InHandoff()
  {
  }

  lemma {:induction false} BindingHeld(r: seq<Device>, i: nat, j: nat)
    requires Run(r) && i <= j < |r|
    requires forall k :: i <= k <= j ==> r[k].Bound()
    ensures r[i].status.nodeIdentity == r[j].status.nodeIdentity
    decreases j - i
  {
    if i < j {
      assert StepOK(r[i], r[i + 1]);
      BindingHeld(r, i + 1, j);
    }
  }

  /** The first index after `i` at which the binding is gone. */
  lemma {:induction false} FirstUnbound(r: seq<Device>, i: nat, j: nat) returns (s: nat)
    requires Run(r) && i < j < |r| && r[i].Bound() && r[j].Bound()
    requires r[i].status.nodeIdentity != r[j].status.nodeIdentity
    ensures i < s < j && !r[s].Bound()
    ensures forall k :: i <= k < s ==> r[k].Bound()
  {
    if forall k :: i <= k <= j ==> r[k].Bound() {
      BindingHeld(r, i, j);
      assert false;
    }
    s := i + 1;
    while r[s].Bound()
      invariant i < s <= j
      invariant forall k :: i <= k < s ==> r[k].Bound()
      decreases j - s
    {
      if s == j {
        assert forall k :: i <= k <= j ==> r[k].Bound();
      }
      s := s + 1;
    }
  }

  /** In a run from a fresh object every handoff record goes back, unchanged
      and without a gap, to a state in Preparing. */
  lemma {:induction false} HandoffBegan(r: seq<Device>, k: nat) returns (p: nat)
    requires Run(r) && k < |r| && r[k].InHandoff()
    ensures p <= k && r[p].InPhase(Preparing)
    ensures forall m :: p <= m <= k ==>
      r[m].InHandoff() && r[m].status.legacyHandoff.value.identity == r[k].status.legacyHandoff.value.identity
    decreases k
  {
    assert k > 0;
    assert StepOK(r[k - 1], r[k]);
    if r[k - 1].InHandoff() {
      p := HandoffBegan(r, k - 1);
    } else {
      p := k;
    }
  }

  lemma {:induction false} EarlierPhaseOfRecord(r: seq<Device>, m: nat, k: nat)
    requires Run(r) && m <= k < |r|
    requires forall n :: m <= n <= k ==> r[n].InHandoff()
    requires r[k].InPhase(LegacyWriterPending)
    ensures r[m].Bound()
    decreases k - m
  {
    if m < k && r[m].InHandoff() {
      assert StepOK(r[m], r[m + 1]);
      EarlierPhaseOfRecord(r, m + 1, k);
    }
  }

  /** A record in SharedWriterPending reaches Complete before the device is bound again. */
  lemma {:induction false} HandoffCompletes(r: seq<Device>, s: nat, j: nat) returns (t: nat)
    requires Run(r) && s < j < |r| && r[j].Bound()
    requires r[s].InHandoff() && Released(r[s].status.legacyHandoff.value.phase)
    ensures s <= t < j && r[t].InPhase(Complete)
    ensures forall m :: s <= m <= t ==>
      r[m].InHandoff() && !r[m].Bound()
      && r[m].status.legacyHandoff.value.identity == r[s].status.legacyHandoff.value.identity
    decreases j - s
  {
    assert StepOK(r[s], r[s + 1]);
    if r[s].InPhase(Complete) {
      t := s;
    } else {
      t := HandoffCompletes(r, s + 1, j);
    }
  }

  /** States `p < q < s < t` of one handoff record, in its four phases; the first
      Node stays bound from `p` to `q` and no Node is bound from `s` to `t`. */
  ghost predicate FullHandoff(r: seq<Device>, p: nat, q: nat, s: nat, t: nat, first: Option<NodeIdentity>) {
    && p < q < s < t < |r|
    && r[p].InPhase(Preparing) && r[q].InPhase(LegacyWriterPending)
    && r[s].InPhase(SharedWriterPending) && r[t].InPhase(Complete)
    && (forall m :: p <= m <= t ==>
          r[m].InHandoff()
          && r[m].status.legacyHandoff.value.identity == r[p].status.legacyHandoff.value.identity)
    && (forall m :: p <= m <= q ==> r[m].status.nodeIdentity == first)
    && (forall m :: s <= m <= t ==> !r[m].Bound())
  }

  /** Two different Node bindings in one run are separated by a complete handoff. */
  lemma {:induction false} FullHandoffBetweenBindings(r: seq<Device>, i: nat, j: nat)
    requires Run(r) && i < j < |r| && r[i].Bound() && r[j].Bound()
    requires r[i].status.nodeIdentity != r[j].status.nodeIdentity
    ensures exists p: nat, q: nat, s: nat, t: nat ::
      i <= q && t < j && FullHandoff(r, p, q, s, t, r[i].status.nodeIdentity)
  {
    var s := FirstUnbound(r, i, j);
    var q := s - 1;
    assert StepOK(r[q], r[s]);
    ReleaseExactlyAtSharedWriterStep(r[q], r[s]);
    var p := HandoffBegan(r, q);
    var t := HandoffCompletes(r, s, j);
    assert HandoffStepOK(r[q].status.legacyHandoff.value, r[s].status.legacyHandoff.value);
    forall m | p <= m <= q
      ensures r[m].status.nodeIdentity == r[i].status.nodeIdentity
    {
      forall n | m <= n <= q ensures r[n].Bound() { EarlierPhaseOfRecord(r, n, q); }
      BindingHeld(r, m, q);
      BindingHeld(r, i, q);
    }
    assert FullHandoff(r, p, q, s, t, r[i].status.nodeIdentity);
  }

  lemma {:induction false} DeclarationKept(r: seq<Device>, i: nat, j: nat)
    requires Run(r) && i <= j < |r| && r[i].physicalIdentity.Some?
    ensures r[j].physicalIdentity == r[i].physicalIdentity
    decreases j - i
  {
    if i < j {
      assert StepOK(r[i], r[i + 1]);
      DeclarationKept(r, i + 1, j);
    }
  }

  /** Every binding of one device, on either side of any number of handoffs,
      carries the same physical identity. */
  lemma BindingsShareIdentity(r: seq<Device>, i: nat, j: nat)
    requires Run(r) && i <= j < |r| && r[i].Bound() && r[j].Bound()
    ensures r[i].status.nodeIdentity.value.physicalIdentity == r[j].status.nodeIdentity.value.physicalIdentity
  {
    DeclarationKept(r, i, j);
  }
}
