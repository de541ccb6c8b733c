/** The validation rules of status.maintenanceSession, and what they guarantee
    for as long as one session record is not settled. */
module MaintenanceSession {
  import opened Wrappers

  datatype Phase = Acknowledged | Active | Recovering | Settled

  datatype Protocol = RolloutV1 | PdbDrainV1

  datatype Purpose = WorkloadDrain | SoftwareMutation

  datatype ObjectRef = ObjectRef(ns: string, name: string, uid: string)

  /** Protocol and purpose may both be absent: the historical software-mutation contract. */
  datatype Session = Session(
    phase: Phase, protocol: Option<Protocol>, purpose: Option<Purpose>, token: string,
    lease: ObjectRef, holder: string, operation: ObjectRef,
    deviceUID: string, nodeName: string, nodeUID: string,
    requestedAt: int, acknowledgedAt: Option<int>, controlRevision: nat)

  function DrainHolder(operationUID: string): string { "software-drain/" + operationUID }

  function MutationHolder(operationUID: string): string { "software-upgrade/" + operationUID }

  predicate LowerHex(c: char) { '0' <= c <= '9' || 'a' <= c <= 'f' }

  /** ^[0-9a-f]{8}-[0-9a-f]{4}-4[0-9a-f]{3}-[89ab][0-9a-f]{3}-[0-9a-f]{12}$ */
  predicate CanonicalUUIDv4(s: string) {
    && |s| == 36
    && (forall i :: 0 <= i < 36 ==> if i in {8, 13, 18, 23} then s[i] == '-' else LowerHex(s[i]))
    && s[14] == '4'
    && s[19] in {'8', '9', 'a', 'b'}
  }

  // ---- Rules over one value ------------------------------------------------

  predicate PurposeFitsProtocol(s: Session) {
    && s.protocol.Some? == s.purpose.Some?
    && (s.protocol == Some(RolloutV1) ==> s.purpose == Some(SoftwareMutation))
  }

  predicate HolderFitsPurpose(s: Session) {
    && (s.purpose == Some(WorkloadDrain) ==> s.holder == DrainHolder(s.operation.uid))
    && (s.protocol == Some(PdbDrainV1) && s.purpose == Some(SoftwareMutation) ==>
          s.holder == MutationHolder(s.operation.uid))
  }

  predicate StateOK(s: Session) {
    && s.acknowledgedAt.Some? && s.acknowledgedAt.value >= s.requestedAt
    && PurposeFitsProtocol(s)
    && (s.phase == Recovering ==> s.protocol.Some?)
    && (s.protocol == Some(PdbDrainV1) ==> CanonicalUUIDv4(s.token))
    && HolderFitsPurpose(s)
  }

  // ---- Rules over an old and a new value -----------------------------------

  predicate SameIdentity(a: Session, b: Session) {
    && a.token == b.token && a.operation == b.operation
    && a.deviceUID == b.deviceUID && a.nodeName == b.nodeName && a.nodeUID == b.nodeUID
    && a.requestedAt == b.requestedAt && a.lease == b.lease && a.protocol == b.protocol
    && a.acknowledgedAt == b.acknowledgedAt
  }

  /** The one permitted change of authority inside a session. */
  predicate Promotes(a: Session, b: Session) {
    a.protocol == Some(PdbDrainV1) && a.purpose == Some(WorkloadDrain) && b.purpose == Some(SoftwareMutation)
  }

  predicate PurposeStepOK(a: Session, b: Session) {
    && a.purpose.Some? == b.purpose.Some?
    && (a.purpose == b.purpose || Promotes(a, b))
  }

  predicate HolderStepOK(a: Session, b: Session) {
    || a.holder == b.holder
    || (Promotes(a, b) && a.holder == DrainHolder(a.operation.uid) && b.holder == MutationHolder(b.operation.uid))
  }

  predicate PhaseStepOK(a: Session, b: Session) {
    match a.phase
    case Acknowledged =>
      b.phase in {Acknowledged, Active, Recovering} || (b.phase == Settled && a.protocol != Some(PdbDrainV1))
    case Active =>
      b.phase in {Active, Recovering} || (b.phase == Settled && a.protocol != Some(PdbDrainV1))
    case Recovering => b.phase in {Recovering, Settled}
    case Settled => true
  }

  predicate StepOK(a: Session, b: Session) {
    && StateOK(b)
    && (a.phase != Settled ==>
          SameIdentity(a, b) && PurposeStepOK(a, b) && HolderStepOK(a, b) && PhaseStepOK(a, b))
    && (a.token == b.token ==> b.controlRevision >= a.controlRevision)
  }

  // ---- One session ---------------------------------------------------------

  /** Consecutive values of one record, unsettled up to but not including the last. */
  ghost predicate SessionRun(r: seq<Session>) {
    && |r| > 0
    && (forall i :: 0 <= i < |r| ==> StateOK(r[i]))
    && (forall i :: 0 <= i < |r| - 1 ==> r[i].phase != Settled)
    && (forall i, j {:trigger StepOK(r[i], r[j])} :: 0 <= i < j < |r| && j == i + 1 ==> StepOK(r[i], r[j]))
  }

  function Rank(p: Phase): nat {
    match p
    case Acknowledged => 0
    case Active => 1
    case Recovering => 2
    case Settled => 3
  }

  /** Everything a session keeps between an earlier and a later state. */
  predicate Evolves(a: Session, b: Session) {
    && SameIdentity(a, b)
    && a.controlRevision <= b.controlRevision
    && Rank(a.phase) <= Rank(b.phase)
    && (a.purpose == b.purpose <==> a.holder == b.holder)
    && (a.purpose != b.purpose ==>
          Promotes(a, b) && a.holder == DrainHolder(a.operation.uid) && b.holder == MutationHolder(a.operation.uid))
  }

  lemma HoldersDiffer(uid: string, uid': string)
    ensures DrainHolder(uid) != MutationHolder(uid')
  {
    assert DrainHolder(uid)[9] == 'd' && MutationHolder(uid')[9] == 'u';
  }

  lemma StepEvolves(a: Session, b: Session)
    requires StateOK(a) && StepOK(a, b) && a.phase != Settled
    ensures Evolves(a, b)
  {
  }

  /** Identity, Lease object and request time never change, the control revision
      and the phase never fall, and purpose and holder change only together. */
  lemma {:induction false} SessionEvolves(r: seq<Session>, i: nat, j: nat)
    requires SessionRun(r) && i <= j < |r|
    ensures Evolves(r[i], r[j])
    decreases j - i
  {
    if i < j {
      StepEvolves(r[i], r[i + 1]) by { assert StepOK(r[i], r[i + 1]); }
      SessionEvolves(r, i + 1, j);
      HoldersDiffer(r[i].operation.uid, r[i].operation.uid);
    }
  }

  /** Purpose and holder change at most once in a session, and never back. */
  lemma PromotedAtMostOnce(r: seq<Session>, i: nat, j: nat, k: nat)
    requires SessionRun(r) && i <= j <= k < |r|
    requires r[i].purpose != r[j].purpose || r[i].holder != r[j].holder
    ensures r[k].purpose == r[j].purpose == Some(SoftwareMutation)
    ensures r[k].holder == r[j].holder == MutationHolder(r[i].operation.uid)
    ensures forall m :: 0 <= m <= i ==> r[m].purpose == r[i].purpose && r[m].holder == r[i].holder
  {
    SessionEvolves(r, i, j);
    SessionEvolves(r, j, k);
    forall m | 0 <= m <= i
      ensures r[m].purpose == r[i].purpose && r[m].holder == r[i].holder
    {
      SessionEvolves(r, m, i);
    }
  }

  /** A drain session settles only out of Recovering; a session without a
      protocol version never enters Recovering. */
  lemma DrainSettlesThroughRecovering(r: seq<Session>, j: nat)
    requires SessionRun(r) && 0 < j < |r|
    ensures r[0].protocol == Some(PdbDrainV1) && r[j].phase == Settled ==> r[j - 1].phase == Recovering
    ensures r[0].protocol == None ==> r[j].phase != Recovering
  {
    SessionEvolves(r, 0, j - 1);
    SessionEvolves(r, 0, j);
    assert StepOK(r[j - 1], r[j]);
  }

  // ---- After settlement ----------------------------------------------------

  /** The field documentation says a token must not be reused for a later holder
      or operation. The rules accept such a reuse exactly when the old session is
      settled and the control revision does not fall. */
  lemma TokenReuseAcceptedExactly(a: Session, b: Session)
    requires StateOK(a) && StateOK(b) && a.token == b.token && a.operation != b.operation
    ensures StepOK(a, b) <==> a.phase == Settled && b.controlRevision >= a.controlRevision
  {
  }

  /** A later holder of the same token is accepted exactly when the old session is
      settled, or as the one promotion of a drain session, without a fall of the
      control revision. */
  lemma LaterHolderAcceptedExactly(a: Session, b: Session)
    requires StateOK(a) && StateOK(b) && a.token == b.token && a.holder != b.holder
    ensures StepOK(a, b) <==>
      && b.controlRevision >= a.controlRevision
      && (a.phase == Settled || (SameIdentity(a, b) && Promotes(a, b) && PhaseStepOK(a, b)))
  {
  }

  lemma TokenReuseExample() returns (a: Session, b: Session)
    ensures StateOK(a) && StepOK(a, b)
    ensures a.token == b.token && a.operation != b.operation && a.holder != b.holder && b.phase == Active
  {
    var lease := ObjectRef("edge", "mutation", "l-1");
    a := Session(Settled, None, None, "abcdefghijklmnop", lease, "software-upgrade/o-1",
                 ObjectRef("edge", "one", "o-1"), "d-1", "n", "n-1", 0, Some(0), 0);
    b := a.(phase := Active, operation := ObjectRef("edge", "two", "o-2"), holder := "software-upgrade/o-2");
    assert a.holder[|a.holder| - 1] == '1' && b.holder[|b.holder| - 1] == '2';
    assert a.operation.name[0] == 'o' && b.operation.name[0] == 't';
  }
}
