/** Fleet-wide deduplication of physical device identities: the admission scan
    and the invariant it keeps over every run of the fleet. */
module PhysicalIdentity {
  import opened Wrappers
  import Text
  import DS = DeviceStatus

  type Labels = map<string, string>
  type Selector = Labels -> bool

  const MAX_IDENTITY_LENGTH := 128

  predicate AlphaNumeric(c: char) { 'a' <= c <= 'z' || 'A' <= c <= 'Z' || '0' <= c <= '9' }

  predicate Separator(c: char) { c == '.' || c == '_' || c == ':' || c == '/' || c == '-' }

  predicate Allowed(c: char, inner: bool) { AlphaNumeric(c) || (inner && Separator(c)) }

  /** The case-insensitive form used for duplicate detection, or None for a
      value outside the accepted alphabet. Surrounding white space is refused by
      the same alphabet test. */
  function Canonical(value: string): Option<string> {
    if value == "" || |value| > MAX_IDENTITY_LENGTH then None
    else if forall i :: 0 <= i < |value| ==> Allowed(value[i], 0 < i < |value| - 1)
    then Some(Text.LowerAscii(value))
    else None
  }

  lemma CaseKeepsAllowed(c: char, d: char, inner: bool)
    requires Text.LowerChar(c) == Text.LowerChar(d)
    ensures Allowed(c, inner) <==> Allowed(d, inner)
    ensures Text.LowerChar(Text.LowerChar(c)) == Text.LowerChar(c)
  {
  }

  lemma CaseKeepsCanonical(v: string, w: string)
    requires Canonical(v).Some? && Text.LowerAscii(v) == Text.LowerAscii(w)
    ensures Canonical(w) == Canonical(v)
  {
    assert |v| == |Text.LowerAscii(v)| == |w|;
    forall i | 0 <= i < |w| ensures Allowed(w[i], 0 < i < |w| - 1) {
      assert Text.LowerAscii(v)[i] == Text.LowerAscii(w)[i];
      CaseKeepsAllowed(v[i], w[i], 0 < i < |w| - 1);
    }
  }

  /** Spellings that differ only in ASCII case have one canonical form, which is
      its own canonical form. */
  lemma CanonicalIgnoresCase(v: string, w: string)
    requires Canonical(v).Some? && Text.LowerAscii(v) == Text.LowerAscii(w)
    ensures Canonical(w) == Canonical(v) && Canonical(Canonical(v).value) == Canonical(v)
  {
    CaseKeepsCanonical(v, w);
    var lower := Text.LowerAscii(v);
    forall i | 0 <= i < |v| ensures Text.LowerAscii(lower)[i] == lower[i] {
      CaseKeepsAllowed(v[i], v[i], true);
    }
    assert Text.LowerAscii(lower) == lower;
    CaseKeepsCanonical(v, lower);
  }

  /** One CiscoDevice as listed: an absent declaration reads as the empty string. */
  datatype Entry = Entry(uid: string, device: DS.Device, labels: Labels) {
    function Declared(): string {
      if device.physicalIdentity.Some? then device.physicalIdentity.value else ""
    }

    function Identity(): Option<string> { Canonical(Declared()) }
  }

  datatype Refusal =
    | MissingUID | InvalidDeclaration | BindingMismatch | MissingSelector | ListFailed
    | DuplicateOf(uid: string)

  /** A selected device, or one that retains any managed incarnation. */
  predicate ManagedPeer(selector: Selector, e: Entry) { selector(e.labels) || e.device.Enrolled() }

  predicate Conflicts(self: Entry, selector: Selector, e: Entry) {
    e.uid != self.uid && e.Identity().Some? && e.Identity() == self.Identity() && ManagedPeer(selector, e)
  }

  function IndexValues(e: Entry): seq<string> {
    if e.Identity().Some? then [e.Identity().value] else []
  }

  /** What the cache returns for one value of the identity index. */
  function Indexed(inventory: seq<Entry>, identity: string): (r: seq<Entry>)
    ensures forall e :: e in r <==> e in inventory && identity in IndexValues(e)
  {
    if inventory == [] then []
    else if identity in IndexValues(inventory[0]) then [inventory[0]] + Indexed(inventory[1..], identity)
    else Indexed(inventory[1..], identity)
  }

  predicate SelfAdmissible(self: Entry) {
    && self.uid != "" && self.Identity().Some?
    && (self.device.Bound() ==> self.device.status.nodeIdentity.value.physicalIdentity == self.Identity().value)
  }

  /** No other listed device is a managed holder of the same identity. */
  ghost predicate Unclaimed(self: Entry, selector: Selector, inventory: seq<Entry>) {
    forall e :: e in inventory ==> !Conflicts(self, selector, e)
  }

  /** The indexed peer lookup gives the same verdict as the full scan. */
  lemma IndexedLookupAgreesWithScan(self: Entry, selector: Selector, inventory: seq<Entry>)
    requires self.Identity().Some?
    ensures Unclaimed(self, selector, inventory)
       <==> Unclaimed(self, selector, Indexed(inventory, self.Identity().value))
  {
  }

  /** The duplicate search over one listed inventory. */
  method FindConflict(self: Entry, identity: string, selector: Selector, devices: seq<Entry>)
    returns (found: Option<string>)
    requires self.Identity() == Some(identity)
    ensures found.None? <==> Unclaimed(self, selector, devices)
    ensures found.Some? ==> exists e :: e in devices && e.uid == found.value && Conflicts(self, selector, e)
  {
    for i := 0 to |devices|
      invariant forall k :: 0 <= k < i ==> !Conflicts(self, selector, devices[k])
    {
      var other := devices[i];
      if other.uid == self.uid { continue; }
      var otherIdentity := other.Identity();
      if otherIdentity.None? || otherIdentity.value != identity { continue; }
      if !(selector(other.labels) || other.device.Bound() || other.device.InHandoff()) { continue; }
      assert devices[i] in devices && Conflicts(self, selector, devices[i]);
      return Some(other.uid);
    }
    return None;
  }

  /** The verdict is that of a scan over the whole inventory, although a bound
      device consults only the index. */
  method ValidateManagedPhysicalIdentity(self: Entry, policy: Option<Selector>, listed: Option<seq<Entry>>)
    returns (r: Result<string, Refusal>)
    ensures r.Ok? <==>
      SelfAdmissible(self) && policy.Some? && listed.Some? && Unclaimed(self, policy.value, listed.value)
    ensures r.Ok? ==> Some(r.value) == self.Identity()
    ensures r.Err? && r.error.DuplicateOf? ==>
      && policy.Some? && listed.Some?
      && exists e :: e in listed.value && e.uid == r.error.uid && Conflicts(self, policy.value, e)
  {
    if self.uid == "" { return Err(MissingUID); }
    var canonical := self.Identity();
    if canonical.None? { return Err(InvalidDeclaration); }
    var identity := canonical.value;
    if self.device.Bound() && self.device.status.nodeIdentity.value.physicalIdentity != identity {
      return Err(BindingMismatch);
    }
    if policy.None? { return Err(MissingSelector); }
    if listed.None? { return Err(ListFailed); }
    var devices := if self.device.Bound() then Indexed(listed.value, identity) else listed.value;
    IndexedLookupAgreesWithScan(self, policy.value, listed.value);
    var found := FindConflict(self, identity, policy.value, devices);
    r := if found.Some? then Err(DuplicateOf(found.value)) else Ok(identity);
  }

  // ---- The fleet as a state machine ----------------------------------------

  datatype Member = Member(device: DS.Device, labels: Labels)

  type Fleet = map<string, Member>

  function EntryOf(f: Fleet, uid: string): Entry
    requires uid in f
  {
    Entry(uid, f[uid].device, f[uid].labels)
  }

  /** An uncached cluster-wide list, in any order. */
  ghost predicate Lists(inventory: seq<Entry>, f: Fleet) {
    && (forall e :: e in inventory ==> e.uid in f && e == EntryOf(f, e.uid))
    && (forall uid :: uid in f ==> EntryOf(f, uid) in inventory)
  }

  /** The fleet, and the device whose scan the manager has passed but not bound.
      Passes of the one elected manager follow each other; everyone else writes
      at any time. */
  datatype World = World(fleet: Fleet, scanned: Option<string>)

  datatype Action =
    | Create(uid: string, member: Member)
    | Remove(uid: string)
    | Relabel(uid: string, labels: Labels)
    | Update(uid: string, device: DS.Device)
    | Scan(uid: string, selector: Selector, inventory: seq<Entry>)
    | Bind(device: DS.Device)
    | Forget

  /** Update is any accepted write that gains no binding; Bind writes the binding
      of the scanned device, which fails once that object is gone. Labels and the
      administrator's selector change freely. */
  ghost predicate StepBy(w: World, a: Action, w': World) {
    var f := w.fleet;
    match a
    case Create(uid, member) =>
      uid !in f && uid != "" && DS.Fresh(member.device) && DS.StateOK(member.device)
      && w' == w.(fleet := f[uid := member])
    case Remove(uid) => w' == World(f - {uid}, if w.scanned == Some(uid) then None else w.scanned)
    case Relabel(uid, labels) => uid in f && w' == w.(fleet := f[uid := f[uid].(labels := labels)])
    case Update(uid, device) =>
      && uid in f && DS.StepOK(f[uid].device, device)
      && (device.Bound() ==> f[uid].device.Bound())
      && w' == w.(fleet := f[uid := f[uid].(device := device)])
    case Scan(uid, selector, inventory) =>
      && uid in f && !f[uid].device.Bound() && Lists(inventory, f)
      && SelfAdmissible(EntryOf(f, uid)) && Unclaimed(EntryOf(f, uid), selector, inventory)
      && w' == w.(scanned := Some(uid))
    case Bind(device) =>
      && w.scanned.Some? && w.scanned.value in f && device.Bound()
      && DS.StepOK(f[w.scanned.value].device, device)
      && w' == World(f[w.scanned.value := f[w.scanned.value].(device := device)], None)
    case Forget => w' == w.(scanned := None)
  }

  ghost predicate FleetStep(w: World, w': World) { exists a :: StepBy(w, a, w') }

  ghost predicate FleetRun(r: seq<World>) {
    && |r| > 0 && r[0] == World(map[], None)
    && (forall i, j {:trigger FleetStep(r[i], r[j])} :: 0 <= i < j < |r| && j == i + 1 ==> FleetStep(r[i], r[j]))
  }

  /** Every device that holds a Node identity or a handoff has its own canonical identity. */
  ghost predicate Deduplicated(f: Fleet) {
    && (forall u :: u in f ==> DS.StateOK(f[u].device))
    && (forall u :: u in f && f[u].device.Enrolled() ==> EntryOf(f, u).Identity().Some?)
    && (forall u, v :: u in f && v in f && u != v && f[u].device.Enrolled() && f[v].device.Enrolled() ==>
          EntryOf(f, u).Identity() != EntryOf(f, v).Identity())
  }

  /** No other enrolled device shares the identity of this one. */
  ghost predicate NoTwin(f: Fleet, uid: string)
    requires uid in f
  {
    && EntryOf(f, uid).Identity().Some?
    && forall v :: v in f && v != uid && f[v].device.Enrolled() ==>
         EntryOf(f, v).Identity() != EntryOf(f, uid).Identity()
  }

  /** What the scan found still holds when the binding is written. */
  ghost predicate ScanHolds(w: World) {
    w.scanned.Some? ==> w.scanned.value in w.fleet && NoTwin(w.fleet, w.scanned.value)
  }

  /** A declared identity is the same before and after any accepted write. */
  lemma DeclarationCarries(f: Fleet, uid: string, device: DS.Device)
    requires uid in f && DS.StepOK(f[uid].device, device)
    ensures f[uid].device.physicalIdentity.Some? ==>
      Entry(uid, device, f[uid].labels).Identity() == EntryOf(f, uid).Identity()
  {
  }

  lemma ReplaceKeepsDeduplicated(f: Fleet, uid: string, device: DS.Device)
    requires Deduplicated(f) && uid in f && DS.StateOK(device)
    requires device.Enrolled() ==> NoTwin(f, uid)
    requires device.Enrolled() ==> Entry(uid, device, f[uid].labels).Identity() == EntryOf(f, uid).Identity()
    ensures Deduplicated(f[uid := f[uid].(device := device)])
  {
  }

  lemma UpdateKeepsDeduplicated(f: Fleet, uid: string, device: DS.Device)
    requires Deduplicated(f) && uid in f && DS.StepOK(f[uid].device, device)
    requires device.Bound() ==> f[uid].device.Bound()
    ensures Deduplicated(f[uid := f[uid].(device := device)])
  {
    DeclarationCarries(f, uid, device);
    ReplaceKeepsDeduplicated(f, uid, device);
  }

  lemma UpdateKeepsNoTwin(f: Fleet, uid: string, device: DS.Device, self: string)
    requires Deduplicated(f) && uid in f && DS.StepOK(f[uid].device, device)
    requires (device.Bound() ==> f[uid].device.Bound()) && self in f && NoTwin(f, self)
    ensures NoTwin(f[uid := f[uid].(device := device)], self)
  {
    DeclarationCarries(f, uid, device);
  }

  lemma ScanFindsNoTwin(f: Fleet, uid: string, selector: Selector, inventory: seq<Entry>)
    requires uid in f && Lists(inventory, f) && Unclaimed(EntryOf(f, uid), selector, inventory)
    requires EntryOf(f, uid).Identity().Some?
    ensures NoTwin(f, uid)
  {
  }

  lemma BindKeepsDeduplicated(f: Fleet, uid: string, device: DS.Device)
    requires Deduplicated(f) && uid in f && NoTwin(f, uid) && DS.StepOK(f[uid].device, device)
    ensures Deduplicated(f[uid := f[uid].(device := device)])
  {
    DeclarationCarries(f, uid, device);
    ReplaceKeepsDeduplicated(f, uid, device);
  }

  lemma CreateKeepsNoTwin(f: Fleet, uid: string, member: Member, self: string)
    requires uid !in f && DS.Fresh(member.device) && self in f && NoTwin(f, self)
    ensures NoTwin(f[uid := member], self)
  {
  }

  lemma StepKeepsScan(w: World, a: Action, w': World)
    requires Deduplicated(w.fleet) && ScanHolds(w) && StepBy(w, a, w')
    ensures ScanHolds(w')
  {
    match a
    case Create(uid, member) => if w.scanned.Some? { CreateKeepsNoTwin(w.fleet, uid, member, w.scanned.value); }
    case Update(uid, device) => if w.scanned.Some? { UpdateKeepsNoTwin(w.fleet, uid, device, w.scanned.value); }
    case Scan(uid, selector, inventory) => ScanFindsNoTwin(w.fleet, uid, selector, inventory);
    case Remove(_) =>
    case Relabel(_, _) =>
    case Bind(_) =>
    case Forget =>
  }

  lemma StepKeepsDeduplicated(w: World, a: Action, w': World)
    requires Deduplicated(w.fleet) && ScanHolds(w) && StepBy(w, a, w')
    ensures Deduplicated(w'.fleet)
  {
    match a
    case Update(uid, device) => UpdateKeepsDeduplicated(w.fleet, uid, device);
    case Bind(device) => BindKeepsDeduplicated(w.fleet, w.scanned.value, device);
    case Create(_, _) =>
    case Remove(_) =>
    case Relabel(_, _) =>
    case Scan(_, _, _) =>
    case Forget =>
  }

  /** In every reachable world, whatever was written between a scan and its
      binding, no two enrolled devices share a canonical identity. */
  lemma {:induction false} FleetDeduplicated(r: seq<World>, n: nat)
    requires FleetRun(r) && n < |r|
    ensures Deduplicated(r[n].fleet) && ScanHolds(r[n])
  {
    if n > 0 {
      FleetDeduplicated(r, n - 1);
      assert FleetStep(r[n - 1], r[n]);
      var a :| StepBy(r[n - 1], a, r[n]);
      StepKeepsDeduplicated(r[n - 1], a, r[n]);
      StepKeepsScan(r[n - 1], a, r[n]);
    }
  }

  /** In every reachable world no two bindings carry one physical identity, and
      each carries the canonical form of its own device's declaration. */
  lemma BindingsDistinctFleetWide(r: seq<World>, n: nat, u: string, v: string)
    requires FleetRun(r) && n < |r|
    requires
      var f := r[n].fleet;
      u in f && v in f && u != v && f[u].device.Bound() && f[v].device.Bound()
    ensures
      var f := r[n].fleet;
      && f[u].device.status.nodeIdentity.value.physicalIdentity != f[v].device.status.nodeIdentity.value.physicalIdentity
      && Some(f[u].device.status.nodeIdentity.value.physicalIdentity) == EntryOf(f, u).Identity()
  {
    FleetDeduplicated(r, n);
  }
}
