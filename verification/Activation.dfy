/** Activation approval of a prepared rollout: the receipts an approval names,
    the prepared leaves they are bound to, and the annotations stamped on leaves. */
module Activation {
  import opened Wrappers
  import Sorting
  import Text

  const PROTOCOL := "activation-approval-v1"

  datatype Receipt = Receipt(deviceUID: string, upgradeUID: string, receiptHash: string)

  datatype Target = Target(
    deviceUID: string, childName: string, nodeUID: string, physicalIdentity: string, generation: int)

  datatype Prepared = Prepared(
    receiptHash: string, upgradeUID: string, deviceUID: string, nodeUID: string, physicalIdentity: string,
    generation: int, campaignUID: string, planHash: string, policyUID: string, targetVersion: string,
    validatedVersion: string, sourceDigest: string, sourceIdentityHash: string, trustIdentityHash: string)

  /** `receiptValid` and `sourceHash` are what the receipt validator and the
      source-identity hash return for this leaf. */
  datatype Leaf = Leaf(
    uid: string, prepared: bool, receipt: Option<Prepared>, receiptValid: bool, sourceHash: Option<string>)

  datatype Plan = Plan(hash: string, policyUID: string, targets: seq<Target>)

  /** A zero time is None. */
  datatype Approval = Approval(
    planHash: string, approvedBy: string, approvedAt: Option<int>, notBefore: Option<int>, notAfter: Option<int>,
    receipts: seq<Receipt>)

  datatype Rollout = Rollout(
    uid: string, prepareOnly: bool, targetVersion: string, imageSHA256: string,
    plan: Option<Plan>, approval: Option<Approval>)

  datatype Payload = Payload(
    protocol: string, campaignUID: string, planHash: string, receipts: seq<Receipt>,
    notBefore: Option<int>, notAfter: Option<int>, approvedBy: string, approvedAt: Option<int>)

  datatype Authorization = Authorization(
    hash: string, receipts: map<string, Receipt>, prepared: map<string, Prepared>, names: map<string, string>)

  predicate ValidSHA256Identity(s: string) {
    |s| == 71 && s[..7] == "sha256:" && forall i :: 7 <= i < 71 ==> '0' <= s[i] <= '9' || 'a' <= s[i] <= 'f'
  }

  // ---- What an approval means ----------------------------------------------

  predicate ReceiptComplete(r: Receipt) {
    !Text.Blank(r.deviceUID) && !Text.Blank(r.upgradeUID) && ValidSHA256Identity(r.receiptHash)
  }

  predicate WindowValid(a: Approval) {
    && !Text.Blank(a.approvedBy) && a.approvedAt.Some? && a.notBefore.Some? && a.notAfter.Some?
    && a.notBefore.value < a.notAfter.value && a.approvedAt.value <= a.notAfter.value
  }

  predicate InputsValid(r: Rollout) {
    && r.plan.Some? && r.approval.Some? && r.prepareOnly
    && r.approval.value.planHash == r.plan.value.hash
    && WindowValid(r.approval.value)
    && |r.approval.value.receipts| == |r.plan.value.targets|
  }

  ghost predicate DistinctDevices(rs: seq<Receipt>) {
    forall i, j :: 0 <= i < j < |rs| ==> rs[i].deviceUID != rs[j].deviceUID
  }

  ghost predicate ReceiptsValid(rs: seq<Receipt>) {
    (forall i :: 0 <= i < |rs| ==> ReceiptComplete(rs[i])) && DistinctDevices(rs)
  }

  /** The leaf carries the valid receipt the approval names, for this target,
      plan, image and policy. */
  predicate LeafMatches(r: Rollout, t: Target, ref: Receipt, leaf: Leaf)
    requires r.plan.Some?
  {
    && leaf.uid == ref.upgradeUID && leaf.prepared && leaf.receipt.Some? && leaf.receiptValid
    && var p := leaf.receipt.value;
       && p.receiptHash == ref.receiptHash && p.upgradeUID == ref.upgradeUID
       && p.deviceUID == t.deviceUID && p.nodeUID == t.nodeUID
       && p.physicalIdentity == t.physicalIdentity && p.generation == t.generation
       && p.campaignUID == r.uid && p.planHash == r.plan.value.hash && p.policyUID == r.plan.value.policyUID
       && p.targetVersion == r.targetVersion && r.targetVersion <= p.validatedVersion
       && p.sourceDigest == "sha256:" + r.imageSHA256
       && leaf.sourceHash == Some(p.sourceIdentityHash)
  }

  function ByDevice(rs: seq<Receipt>): map<string, Receipt> {
    if rs == [] then map[] else ByDevice(rs[..|rs| - 1])[rs[|rs| - 1].deviceUID := rs[|rs| - 1]]
  }

  predicate TargetMatches(r: Rollout, leaves: map<string, Leaf>, refs: map<string, Receipt>, t: Target)
    requires r.plan.Some?
  {
    t.deviceUID in refs && t.childName in leaves && LeafMatches(r, t, refs[t.deviceUID], leaves[t.childName])
  }

  ghost predicate Approvable(r: Rollout, leaves: map<string, Leaf>) {
    && InputsValid(r) && ReceiptsValid(r.approval.value.receipts)
    && forall i :: 0 <= i < |r.plan.value.targets| ==>
         TargetMatches(r, leaves, ByDevice(r.approval.value.receipts), r.plan.value.targets[i])
  }

  function PreparedByDevice(ts: seq<Target>, leaves: map<string, Leaf>): map<string, Prepared>
    requires forall i :: 0 <= i < |ts| ==> ts[i].childName in leaves && leaves[ts[i].childName].receipt.Some?
  {
    if ts == [] then map[]
    else
      var t := ts[|ts| - 1];
      PreparedByDevice(ts[..|ts| - 1], leaves)[t.deviceUID := leaves[t.childName].receipt.value]
  }

  function NamesByDevice(ts: seq<Target>): map<string, string> {
    if ts == [] then map[] else NamesByDevice(ts[..|ts| - 1])[ts[|ts| - 1].deviceUID := ts[|ts| - 1].childName]
  }

  predicate UIDOrder(a: Receipt, b: Receipt) { !Text.Below(b.deviceUID, a.deviceUID) }

  function CanonicalPayload(r: Rollout): Payload
    requires r.approval.Some?
  {
    var a := r.approval.value;
    Payload(PROTOCOL, r.uid, a.planHash, Sorting.Sort(UIDOrder, a.receipts),
            a.notBefore, a.notAfter, a.approvedBy, a.approvedAt)
  }

  /** `hash` stands for SHA-256 over the JSON encoding. */
  ghost function AuthorizationOf(r: Rollout, leaves: map<string, Leaf>, hash: Payload -> string): Authorization
    requires Approvable(r, leaves)
  {
    Authorization(hash(CanonicalPayload(r)), ByDevice(r.approval.value.receipts),
                  PreparedByDevice(r.plan.value.targets, leaves), NamesByDevice(r.plan.value.targets))
  }

  // ---- The validator -------------------------------------------------------

  datatype Refusal = Inputs | IncompleteReceipt | DuplicateDevice(uid: string) | TargetRefused(childName: string)

  method CollectReceipts(rs: seq<Receipt>) returns (r: Result<map<string, Receipt>, Refusal>)
    ensures r.Ok? <==> ReceiptsValid(rs)
    ensures r.Ok? ==> r.value == ByDevice(rs)
  {
    var refs: map<string, Receipt> := map[];
    for i := 0 to |rs|
      invariant refs == ByDevice(rs[..i]) && ReceiptsValid(rs[..i])
      invariant forall k :: 0 <= k < i ==> rs[k].deviceUID in refs
      invariant forall u :: u in refs ==> exists k :: 0 <= k < i && rs[k].deviceUID == u
    {
      assert rs[..i + 1][..i] == rs[..i] && rs[..i + 1][i] == rs[i];
      if !ReceiptComplete(rs[i]) { return Err(IncompleteReceipt); }
      if rs[i].deviceUID in refs { return Err(DuplicateDevice(rs[i].deviceUID)); }
      refs := refs[rs[i].deviceUID := rs[i]];
    }
    assert rs[..|rs|] == rs;
    return Ok(refs);
  }

  method ValidateActivationApproval(r: Rollout, leaves: map<string, Leaf>, hash: Payload -> string)
    returns (out: Result<Authorization, Refusal>)
    ensures out.Ok? <==> Approvable(r, leaves)
    ensures out.Ok? ==> out.value == AuthorizationOf(r, leaves, hash)
  {
    if !InputsValid(r) { return Err(Inputs); }
    var collected := CollectReceipts(r.approval.value.receipts);
    if collected.Err? { return Err(collected.error); }
    var refs, targets := collected.value, r.plan.value.targets;
    var prepared: map<string, Prepared> := map[];
    var names: map<string, string> := map[];
    for i := 0 to |targets|
      invariant forall k :: 0 <= k < i ==> TargetMatches(r, leaves, refs, targets[k])
      invariant prepared == PreparedByDevice(targets[..i], leaves) && names == NamesByDevice(targets[..i])
    {
      var t := targets[i];
      if !TargetMatches(r, leaves, refs, t) { return Err(TargetRefused(t.childName)); }
      assert targets[..i + 1][..i] == targets[..i] && targets[..i + 1][i] == t;
      prepared := prepared[t.deviceUID := leaves[t.childName].receipt.value];
      names := names[t.deviceUID := t.childName];
    }
    assert targets[..|targets|] == targets;
    return Ok(Authorization(hash(CanonicalPayload(r)), refs, prepared, names));
  }

  // ---- Order independence --------------------------------------------------

  lemma {:induction false} ByDeviceContents(rs: seq<Receipt>, u: string)
    requires DistinctDevices(rs)
    ensures u in ByDevice(rs) <==> exists r :: r in rs && r.deviceUID == u
    ensures u in ByDevice(rs) ==> ByDevice(rs)[u] in rs && ByDevice(rs)[u].deviceUID == u
  {
    if rs != [] {
      var init, last := rs[..|rs| - 1], rs[|rs| - 1];
      ByDeviceContents(init, u);
      assert rs == init + [last];
    }
  }

  lemma DistinctByElement(rs: seq<Receipt>, x: Receipt, y: Receipt)
    requires DistinctDevices(rs) && x in rs && y in rs && x.deviceUID == y.deviceUID
    ensures x == y
  {
  }

  lemma ByDeviceForgetsOrder(a: seq<Receipt>, b: seq<Receipt>)
    requires DistinctDevices(a) && DistinctDevices(b) && multiset(a) == multiset(b)
    ensures ByDevice(a) == ByDevice(b)
  {
    forall r: Receipt ensures r in a <==> r in b { assert r in multiset(a) <==> r in multiset(b); }
    forall u: string
      ensures u in ByDevice(a) <==> u in ByDevice(b)
      ensures u in ByDevice(a) ==> ByDevice(a)[u] == ByDevice(b)[u]
    {
      ByDeviceContents(a, u);
      ByDeviceContents(b, u);
      if u in ByDevice(a) { DistinctByElement(a, ByDevice(a)[u], ByDevice(b)[u]); }
    }
  }

  lemma UIDOrderOrders()
    ensures Sorting.TotalPreorder(UIDOrder)
  {
    forall a, b: Receipt ensures UIDOrder(a, b) || UIDOrder(b, a) {
      if Text.Below(a.deviceUID, b.deviceUID) { Text.BelowAsymmetric(a.deviceUID, b.deviceUID); }
    }
    forall a, b, c: Receipt | UIDOrder(a, b) && UIDOrder(b, c) ensures UIDOrder(a, c) {
      if Text.Below(c.deviceUID, a.deviceUID) {
        Text.BelowTotal(a.deviceUID, b.deviceUID);
        if Text.Below(a.deviceUID, b.deviceUID) { Text.BelowTransitive(c.deviceUID, a.deviceUID, b.deviceUID); }
      }
    }
  }

  lemma PermutedReceiptsValid(a: seq<Receipt>, b: seq<Receipt>)
    requires multiset(a) == multiset(b) && ReceiptsValid(a)
    ensures ReceiptsValid(b)
  {
    forall i | 0 <= i < |b| ensures ReceiptComplete(b[i]) {
      assert b[i] in multiset(a);
      assert b[i] in a;
    }
    forall i, j | 0 <= i < j < |b| ensures b[i].deviceUID != b[j].deviceUID {
      assert b[i] in multiset(a) && b[j] in multiset(a);
      if b[i].deviceUID == b[j].deviceUID {
        DistinctByElement(a, b[i], b[j]);
        TwiceInMultiset(b, i, j);
        OnceInDistinct(a, b[i]);
      }
    }
  }

  lemma TwiceInMultiset(b: seq<Receipt>, i: nat, j: nat)
    requires i < j < |b| && b[i] == b[j]
    ensures multiset(b)[b[i]] >= 2
  {
    assert b == b[..j] + [b[j]] + b[j + 1..];
    assert b[i] in b[..j];
    assert multiset(b) == multiset(b[..j]) + multiset{b[j]} + multiset(b[j + 1..]);
  }

  lemma {:induction false} OnceInDistinct(a: seq<Receipt>, x: Receipt)
    requires DistinctDevices(a)
    ensures multiset(a)[x] <= 1
  {
    if a != [] {
      var init, last := a[..|a| - 1], a[|a| - 1];
      OnceInDistinct(init, x);
      assert a == init + [last];
      assert x == last ==> x !in init;
    }
  }

  /** Any permutation of the receipts is approved alike, and yields the same
      authorization with the same hash. */
  lemma ApprovalForgetsReceiptOrder(
    r: Rollout, leaves: map<string, Leaf>, hash: Payload -> string, receipts: seq<Receipt>)
    requires r.approval.Some? && multiset(receipts) == multiset(r.approval.value.receipts)
    requires Approvable(r, leaves)
    ensures Approvable(r.(approval := Some(r.approval.value.(receipts := receipts))), leaves)
    ensures AuthorizationOf(r.(approval := Some(r.approval.value.(receipts := receipts))), leaves, hash)
         == AuthorizationOf(r, leaves, hash)
  {
    var before := r.approval.value.receipts;
    var r' := r.(approval := Some(r.approval.value.(receipts := receipts)));
    assert |multiset(receipts)| == |receipts| && |multiset(before)| == |before|;
    PermutedReceiptsValid(before, receipts);
    ByDeviceForgetsOrder(before, receipts);
    UIDOrderOrders();
    forall x, y | x in before && y in before && UIDOrder(x, y) && UIDOrder(y, x) ensures x == y {
      Text.BelowTotal(x.deviceUID, y.deviceUID);
      DistinctByElement(before, x, y);
    }
    Sorting.SortForgetsOrder(UIDOrder, before, receipts);
    forall i | 0 <= i < |r'.plan.value.targets|
      ensures TargetMatches(r', leaves, ByDevice(receipts), r'.plan.value.targets[i])
    {
      assert TargetMatches(r, leaves, ByDevice(before), r.plan.value.targets[i]);
    }
  }

  // ---- Receipts and targets ------------------------------------------------

  function DeviceUIDs(rs: seq<Receipt>): (us: seq<string>)
    ensures |us| == |rs| && forall i :: 0 <= i < |rs| ==> us[i] == rs[i].deviceUID
  {
    seq(|rs|, i requires 0 <= i < |rs| => rs[i].deviceUID)
  }

  function TargetUIDs(ts: seq<Target>): (us: seq<string>)
    ensures |us| == |ts| && forall i :: 0 <= i < |ts| ==> us[i] == ts[i].deviceUID
  {
    seq(|ts|, i requires 0 <= i < |ts| => ts[i].deviceUID)
  }

  function Elements(us: seq<string>): set<string> { set u | u in us }

  predicate Distinct(us: seq<string>) { forall i, j :: 0 <= i < j < |us| ==> us[i] != us[j] }

  lemma {:induction false} DistinctExactlyWhenFull(us: seq<string>)
    ensures |Elements(us)| <= |us| && (|Elements(us)| == |us| <==> Distinct(us))
  {
    if us != [] {
      var init, last := us[..|us| - 1], us[|us| - 1];
      DistinctExactlyWhenFull(init);
      assert us == init + [last];
      assert Elements(us) == Elements(init) + {last};
      if Distinct(us) { assert last !in init; }
      if Distinct(init) && last !in init {
        forall i, j | 0 <= i < j < |us| ensures us[i] != us[j] {
          assert us[i] == init[i];
          if j < |init| { assert us[j] == init[j]; } else { assert us[i] in init; }
        }
      }
    }
  }

  lemma SubsetOfEqualSize(a: set<string>, b: set<string>)
    requires a <= b
    ensures a == b <==> |a| == |b|
  {
    if |a| == |b| {
      assert |b - a| == |b| - |a|;
    }
  }

  /** What the API server stores: `targets` is a list keyed by deviceUID. */
  predicate SchemaValid(plan: Plan) { Distinct(TargetUIDs(plan.targets)) }

  lemma TargetsAreNamed(r: Rollout, leaves: map<string, Leaf>)
    requires Approvable(r, leaves)
    ensures Elements(TargetUIDs(r.plan.value.targets)) <= Elements(DeviceUIDs(r.approval.value.receipts))
  {
    var rs, ts := r.approval.value.receipts, r.plan.value.targets;
    var named, planned := DeviceUIDs(rs), TargetUIDs(ts);
    forall u | u in planned ensures u in named {
      var i :| 0 <= i < |ts| && planned[i] == u;
      assert TargetMatches(r, leaves, ByDevice(rs), ts[i]);
      ByDeviceContents(rs, u);
      var x :| x in rs && x.deviceUID == u;
      var k :| 0 <= k < |rs| && rs[k] == x;
      assert named[k] == u;
    }
  }

  /** The named devices are the planned ones exactly when the plan keeps its list
      key, whichever way the plan was obtained. */
  lemma EqualSetsExactlyWithListKey(r: Rollout, leaves: map<string, Leaf>)
    requires Approvable(r, leaves)
    ensures
      var named, planned := DeviceUIDs(r.approval.value.receipts), TargetUIDs(r.plan.value.targets);
      Distinct(named) && (Elements(named) == Elements(planned) <==> SchemaValid(r.plan.value))
  {
    var named, planned := DeviceUIDs(r.approval.value.receipts), TargetUIDs(r.plan.value.targets);
    TargetsAreNamed(r, leaves);
    DistinctExactlyWhenFull(named);
    DistinctExactlyWhenFull(planned);
    SubsetOfEqualSize(Elements(planned), Elements(named));
  }

  lemma {:induction false} DistinctOnce(us: seq<string>, u: string)
    requires Distinct(us)
    ensures multiset(us)[u] == if u in us then 1 else 0
  {
    if us != [] {
      var init, last := us[..|us| - 1], us[|us| - 1];
      DistinctOnce(init, u);
      assert us == init + [last];
    }
  }

  /** An approval names every device of the stored plan exactly once, and no other. */
  lemma ApprovedDevicesAreTargets(r: Rollout, leaves: map<string, Leaf>)
    requires Approvable(r, leaves) && SchemaValid(r.plan.value)
    ensures multiset(DeviceUIDs(r.approval.value.receipts)) == multiset(TargetUIDs(r.plan.value.targets))
  {
    var named, planned := DeviceUIDs(r.approval.value.receipts), TargetUIDs(r.plan.value.targets);
    EqualSetsExactlyWithListKey(r, leaves);
    forall u: string ensures multiset(named)[u] == multiset(planned)[u] {
      DistinctOnce(named, u);
      DistinctOnce(planned, u);
      assert u in named <==> u in Elements(named);
      assert u in planned <==> u in Elements(planned);
    }
  }

  lemma {:induction false} NamesContents(ts: seq<Target>, u: string)
    ensures u in NamesByDevice(ts) <==> u in TargetUIDs(ts)
    ensures u in NamesByDevice(ts) ==>
      exists i :: 0 <= i < |ts| && ts[i].deviceUID == u && ts[i].childName == NamesByDevice(ts)[u]
  {
    if ts != [] {
      var init, last := ts[..|ts| - 1], ts[|ts| - 1];
      NamesContents(init, u);
      assert TargetUIDs(ts) == TargetUIDs(init) + [last.deviceUID];
      if u != last.deviceUID && u in NamesByDevice(init) {
        var i :| 0 <= i < |init| && init[i].deviceUID == u && init[i].childName == NamesByDevice(init)[u];
        assert ts[i] == init[i];
      }
    }
  }

  /** Different devices are bound to different prepared leaves. */
  lemma EachDeviceItsOwnLeaf(r: Rollout, leaves: map<string, Leaf>, u: string, v: string)
    requires Approvable(r, leaves) && u != v
    requires u in TargetUIDs(r.plan.value.targets) && v in TargetUIDs(r.plan.value.targets)
    ensures
      var names := NamesByDevice(r.plan.value.targets);
      && u in names && v in names && names[u] != names[v]
      && names[u] in leaves && leaves[names[u]].receipt.Some? && leaves[names[u]].receipt.value.deviceUID == u
  {
    var ts := r.plan.value.targets;
    NamesContents(ts, u);
    NamesContents(ts, v);
    var i :| 0 <= i < |ts| && ts[i].deviceUID == u && ts[i].childName == NamesByDevice(ts)[u];
    var j :| 0 <= j < |ts| && ts[j].deviceUID == v && ts[j].childName == NamesByDevice(ts)[v];
    assert TargetMatches(r, leaves, ByDevice(r.approval.value.receipts), ts[i]);
    assert TargetMatches(r, leaves, ByDevice(r.approval.value.receipts), ts[j]);
  }

  // ---- Leaf annotations ----------------------------------------------------

  const APPROVAL_HASH := "topology.cisco.vk/activation-approval-hash"
  const RECEIPT_HASH := "topology.cisco.vk/prepared-receipt-hash"
  const UPGRADE_NAME := "topology.cisco.vk/prepared-upgrade-name"
  const UPGRADE_UID := "topology.cisco.vk/prepared-upgrade-uid"
  const TRUST_HASH := "topology.cisco.vk/prepared-trust-hash"
  const SOURCE_DIGEST := "topology.cisco.vk/prepared-source-digest"

  predicate Authorizes(a: Authorization, u: string) { u in a.receipts && u in a.prepared }

  function Stamp(a: Authorization, u: string): map<string, string>
    requires Authorizes(a, u)
  {
    map[APPROVAL_HASH := a.hash, RECEIPT_HASH := a.receipts[u].receiptHash, UPGRADE_NAME := Lookup(a.names, u),
        UPGRADE_UID := a.receipts[u].upgradeUID, TRUST_HASH := a.prepared[u].trustIdentityHash,
        SOURCE_DIGEST := a.prepared[u].sourceDigest]
  }

  /** Six successive writes are one merge, whether or not keys coincide. */
  lemma UpdatesMerge(
    m: map<string, string>, a: string, b: string, c: string, d: string, e: string, f: string,
    va: string, vb: string, vc: string, vd: string, ve: string, vf: string)
    ensures m[a := va][b := vb][c := vc][d := vd][e := ve][f := vf]
         == m + map[a := va, b := vb, c := vc, d := vd, e := ve, f := vf]
  {
  }

  /** An annotation map, written in place. */
  class Annotations {
    var entries: map<string, string>

    constructor ()
      ensures entries == map[]
    {
      entries := map[];
    }

    method ApplyActivation(a: Option<Authorization>, u: string) returns (ok: bool)
      modifies this
      ensures ok <==> a.Some? && Authorizes(a.value, u)
      ensures entries == if ok then old(entries) + Stamp(a.value, u) else old(entries)
    {
      if a.None? || u !in a.value.receipts || u !in a.value.prepared { return false; }
      var ref, receipt := a.value.receipts[u], a.value.prepared[u];
      UpdatesMerge(entries, APPROVAL_HASH, RECEIPT_HASH, UPGRADE_NAME, UPGRADE_UID, TRUST_HASH, SOURCE_DIGEST,
                   a.value.hash, ref.receiptHash, Lookup(a.value.names, u), ref.upgradeUID,
                   receipt.trustIdentityHash, receipt.sourceDigest);
      entries := entries[APPROVAL_HASH := a.value.hash];
      entries := entries[RECEIPT_HASH := ref.receiptHash];
      entries := entries[UPGRADE_NAME := Lookup(a.value.names, u)];
      entries := entries[UPGRADE_UID := ref.upgradeUID];
      entries := entries[TRUST_HASH := receipt.trustIdentityHash];
      entries := entries[SOURCE_DIGEST := receipt.sourceDigest];
      return true;
    }
  }

  predicate LeafValidates(leaf: map<string, string>, a: Authorization, u: string) {
    Authorizes(a, u) && Agrees(leaf, Stamp(a, u))
  }

  method ValidateActivationLeafAnnotations(leaf: Option<map<string, string>>, a: Option<Authorization>, u: string)
    returns (ok: bool)
    ensures ok <==> leaf.Some? && a.Some? && LeafValidates(leaf.value, a.value, u)
  {
    if leaf.None? { return false; }
    var expected := new Annotations();
    var applied := expected.ApplyActivation(a, u);
    if !applied { return false; }
    assert expected.entries == Stamp(a.value, u);
    var keys := expected.entries.Keys;
    while keys != {}
      invariant keys <= expected.entries.Keys && expected.entries == Stamp(a.value, u)
      invariant forall k :: k in expected.entries && k !in keys ==> Lookup(leaf.value, k) == expected.entries[k]
      decreases keys
    {
      var k :| k in keys;
      if Lookup(leaf.value, k) != expected.entries[k] { return false; }
      keys := keys - {k};
    }
    return true;
  }

  lemma UpgradeNameKeyDistinct()
    ensures UPGRADE_NAME !in {APPROVAL_HASH, RECEIPT_HASH, UPGRADE_UID, TRUST_HASH, SOURCE_DIGEST}
  {
  }

  /** A leaf stamped for one approved device validates for that device and for
      no other device of the plan, whatever else it was annotated with. */
  lemma StampedLeafValidatesExactly(
    r: Rollout, leaves: map<string, Leaf>, hash: Payload -> string, leaf: map<string, string>, u: string, v: string)
    requires Approvable(r, leaves)
    requires u in TargetUIDs(r.plan.value.targets) && v in TargetUIDs(r.plan.value.targets)
    ensures
      var a := AuthorizationOf(r, leaves, hash);
      Authorizes(a, u) && (LeafValidates(leaf + Stamp(a, u), a, v) <==> u == v)
  {
    var a := AuthorizationOf(r, leaves, hash);
    TargetsAuthorized(r, leaves, u);
    TargetsAuthorized(r, leaves, v);
    var stamped := leaf + Stamp(a, u);
    if u != v {
      EachDeviceItsOwnLeaf(r, leaves, u, v);
      UpgradeNameKeyDistinct();
      assert Stamp(a, u)[UPGRADE_NAME] == a.names[u] && Stamp(a, v)[UPGRADE_NAME] == a.names[v];
      assert Lookup(stamped, UPGRADE_NAME) == a.names[u];
    }
  }

  lemma TargetsAuthorized(r: Rollout, leaves: map<string, Leaf>, u: string)
    requires Approvable(r, leaves) && u in TargetUIDs(r.plan.value.targets)
    ensures u in ByDevice(r.approval.value.receipts) && u in PreparedByDevice(r.plan.value.targets, leaves)
  {
    var ts := r.plan.value.targets;
    var i :| 0 <= i < |ts| && TargetUIDs(ts)[i] == u;
    assert TargetMatches(r, leaves, ByDevice(r.approval.value.receipts), ts[i]);
    PreparedContains(ts, leaves, i);
  }

  lemma {:induction false} PreparedContains(ts: seq<Target>, leaves: map<string, Leaf>, i: nat)
    requires forall k :: 0 <= k < |ts| ==> ts[k].childName in leaves && leaves[ts[k].childName].receipt.Some?
    requires i < |ts|
    ensures ts[i].deviceUID in PreparedByDevice(ts, leaves)
  {
    if i < |ts| - 1 { PreparedContains(ts[..|ts| - 1], leaves, i); }
  }
}
