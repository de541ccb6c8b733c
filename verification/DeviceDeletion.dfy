/** Crash-resumable deletion of a managed device. Every persisted effect is one
    step, an attempt may stop between any two of them, and a later attempt starts
    again from the settled check. */
module DeviceDeletion {
  import opened Wrappers
  import opened ManagedLeases

  /** What the current attempt will do next. */
  datatype Pass =
    | Idle | Quiesce | RetirePrior | Revoke | ListLeases
    | DeleteLeases(order: seq<Lease>, next: nat)
    | DeleteNode | RemoveFinalizer

  /** Effects of the controller, with the device's Leases that remained. */
  datatype Event =
    | AccessRevoked
    | LeaseDeleted(lease: Lease, remaining: set<Lease>)
    | NodeDeleted(remaining: set<Lease>)
    | FinalizerRemoved(nodeGone: bool)

  datatype State = State(
    binding: Binding, leaseNamespace: string, live: set<Lease>,
    workersStopped: bool, bindingsCleared: bool, revoked: bool,
    node: bool, finalizer: bool, pass: Pass, log: seq<Event>)
  {
    /** Worker names come from the Node and are empty once it is gone. */
    function CurrentBinding(): Binding {
      if node then binding else binding.(appWorker := "", networkWorker := "")
    }

    function OurLeases(): set<Lease> { set l | l in live && binding.Ours(l) }

    predicate Canonical(l: Lease) {
      l.ns == leaseNamespace && l.name == binding.names(MUTATION_FAMILY) && binding.Ours(l) && l.Mutation()
    }

    predicate CanonicalPresent() { exists l :: l in live && Canonical(l) }

    /** The per-device fence that replaces the mutation Lease as proof on a retry. */
    predicate Fenced() { revoked && workersStopped && (bindingsCleared || !node) }
  }

  /** The authorities a deletion waits for: `idle` stands for the topology lock,
      the maintenance session, upgrades, the ledger and, when the canonical Lease
      exists, its idle holder. */
  predicate Settled(s: State, idle: bool) { idle && (s.CanonicalPresent() || s.Fenced()) }

  datatype Action =
    | Begin(idle: bool) | QuiesceWorkers | RetirePriorAccess | RevokeAccess
    | List(listed: seq<Lease>) | DeleteNext | RemoveNode | Finish | Stop
    | WorkerWrites(live: set<Lease>) | LeaseLost(lease: Lease) | NodeLost

  /** Workers may rewrite their Leases until they are stopped, but cannot delete
      them; the cluster may lose a non-mutation Lease or the Node at any time. */
  ghost predicate Enabled(s: State, a: Action) {
    match a
    case Begin(_) => s.pass == Idle && s.finalizer
    case QuiesceWorkers => s.pass == Quiesce
    case RetirePriorAccess => s.pass == RetirePrior
    case RevokeAccess => s.pass == Revoke
    case List(listed) => s.pass == ListLeases && Lists(listed, s.live)
    case DeleteNext => s.pass.DeleteLeases?
    case RemoveNode => s.pass == DeleteNode
    case Finish => s.pass == RemoveFinalizer
    case Stop => true
    case WorkerWrites(live) => !s.workersStopped && s.(live := live).CanonicalPresent()
    case LeaseLost(lease) => !lease.Mutation()
    case NodeLost => true
  }

  /** A Lease that is already gone counts as deleted. */
  function DeleteStep(s: State): State {
    if !s.pass.DeleteLeases? || s.pass.next >= |s.pass.order| then s.(pass := DeleteNode)
    else
      var l := s.pass.order[s.pass.next];
      var s' := s.(live := s.live - {l}, pass := DeleteLeases(s.pass.order, s.pass.next + 1));
      if l in s.live then s'.(log := s.log + [LeaseDeleted(l, s'.OurLeases())]) else s'
  }

  function Apply(s: State, a: Action): State {
    match a
    case Begin(idle) => if Settled(s, idle) then s.(pass := Quiesce) else s
    case QuiesceWorkers => s.(workersStopped := true, bindingsCleared := true, pass := RetirePrior)
    case RetirePriorAccess => s.(pass := Revoke)
    case RevokeAccess =>
      s.(revoked := true, pass := ListLeases, log := if s.revoked then s.log else s.log + [AccessRevoked])
    case List(listed) =>
      var b := s.CurrentBinding();
      s.(pass := if b.AllSafe(listed) then DeleteLeases(DeletionOrder(b.Candidates(listed)), 0) else Idle)
    case DeleteNext => DeleteStep(s)
    case RemoveNode =>
      s.(node := false, pass := RemoveFinalizer, log := if s.node then s.log + [NodeDeleted(s.OurLeases())] else s.log)
    case Finish => s.(finalizer := false, pass := Idle, log := s.log + [FinalizerRemoved(!s.node)])
    case Stop => s.(pass := Idle)
    case WorkerWrites(live) => s.(live := live)
    case LeaseLost(lease) => s.(live := s.live - {lease})
    case NodeLost => s.(node := false)
  }

  /** Validated with the worker names of a present or an absent Node. */
  predicate Deletable(b: Binding, l: Lease) { b.Safe(l) || b.(appWorker := "", networkWorker := "").Safe(l) }

  ghost predicate Runs(s: State, actions: seq<Action>)
    decreases actions
  {
    actions == [] || (Enabled(s, actions[0]) && Runs(Apply(s, actions[0]), actions[1..]))
  }

  function End(s: State, actions: seq<Action>): State
    decreases actions
  {
    if actions == [] then s else End(Apply(s, actions[0]), actions[1..])
  }

  // ---- What the log guarantees ---------------------------------------------

  predicate NoOtherFence(remaining: set<Lease>) { forall r :: r in remaining ==> !r.Mutation() }

  /** Access is revoked first; a Lease goes only while it and every remaining
      Lease of the device are validated, a mutation fence after all other purposes
      and as the very last exactly when it is the only one; the Node goes after
      the Leases and the finalizer last. */
  ghost predicate EventOK(b: Binding, log: seq<Event>, i: nat)
    requires i < |log|
  {
    match log[i]
    case AccessRevoked => true
    case LeaseDeleted(l, remaining) =>
      && AccessRevoked in log[..i]
      && Deletable(b, l) && (forall r :: r in remaining ==> Deletable(b, r))
      && (l.Mutation() ==> forall r :: r in remaining ==> r.Mutation())
      && (l.Mutation() ==> (remaining == {} <==> NoOtherFence(remaining)))
    case NodeDeleted(remaining) => AccessRevoked in log[..i] && remaining == {}
    case FinalizerRemoved(nodeGone) => AccessRevoked in log[..i] && nodeGone && i == |log| - 1
  }

  ghost predicate LogOK(b: Binding, log: seq<Event>) { forall i :: 0 <= i < |log| ==> EventOK(b, log, i) }

  ghost predicate OrderOK(order: seq<Lease>) {
    forall n, k :: 0 <= n < k < |order| && order[n].Mutation() ==> order[k].Mutation()
  }

  ghost predicate OrderValidated(b: Binding, order: seq<Lease>) {
    forall k :: 0 <= k < |order| ==> Deletable(b, order[k])
  }

  /** Every remaining Lease of the device is still to be deleted. */
  ghost predicate OursRemain(s: State, order: seq<Lease>, next: nat)
    requires next <= |order|
  {
    forall l :: l in s.OurLeases() ==> l in order[next..]
  }

  ghost predicate PassOK(s: State) {
    match s.pass
    case Idle | Quiesce => true
    case RetirePrior | Revoke => s.workersStopped && s.bindingsCleared
    case ListLeases => s.workersStopped && s.bindingsCleared && s.revoked
    case DeleteLeases(order, next) =>
      && s.workersStopped && s.bindingsCleared && s.revoked
      && next <= |order| && OrderOK(order)
      && OrderValidated(s.binding, order) && OursRemain(s, order, next)
    case DeleteNode => s.workersStopped && s.bindingsCleared && s.revoked && s.OurLeases() == {}
    case RemoveFinalizer => s.workersStopped && s.bindingsCleared && s.revoked && s.OurLeases() == {} && !s.node
  }

  ghost predicate Inv(s: State) {
    && LogOK(s.binding, s.log) && PassOK(s)
    && (s.revoked ==> AccessRevoked in s.log)
    && (s.finalizer ==> forall i :: 0 <= i < |s.log| ==> !s.log[i].FinalizerRemoved?)
    && (s.pass != Idle ==> s.finalizer)
    && (!s.CanonicalPresent() ==> s.Fenced())
    && (s.bindingsCleared ==> s.workersStopped)
  }

  lemma AppendEvent(b: Binding, log: seq<Event>, e: Event)
    requires LogOK(b, log) && (forall i :: 0 <= i < |log| ==> !log[i].FinalizerRemoved?)
    requires EventOK(b, log + [e], |log|)
    ensures LogOK(b, log + [e])
  {
    forall i | 0 <= i < |log| ensures EventOK(b, log + [e], i) {
      assert EventOK(b, log, i);
      assert (log + [e])[..i] == log[..i] && (log + [e])[i] == log[i];
    }
  }

  lemma ListKeepsInv(s: State, listed: seq<Lease>)
    requires Inv(s) && Enabled(s, List(listed))
    ensures Inv(Apply(s, List(listed)))
  {
    var b := s.CurrentBinding();
    if b.AllSafe(listed) {
      var cs := b.Candidates(listed);
      var order := DeletionOrder(cs);
      MutationLeasesLast(cs);
      ListedOrder(s.binding, b, listed, s.live);
      assert forall l :: l in s.OurLeases() ==> l in s.live && b.Ours(l);
    }
  }

  lemma ListedOrder(binding: Binding, b: Binding, listed: seq<Lease>, live: set<Lease>)
    requires b == binding || b == binding.(appWorker := "", networkWorker := "")
    requires b.AllSafe(listed) && Members(listed) == live
    ensures OrderValidated(binding, DeletionOrder(b.Candidates(listed)))
    ensures forall l :: l in live && b.Ours(l) ==> l in DeletionOrder(b.Candidates(listed))[0..]
  {
    var cs := b.Candidates(listed);
    var order := DeletionOrder(cs);
    MutationLeasesLast(cs);
    forall k | 0 <= k < |order| ensures Deletable(binding, order[k]) {
      assert order[k] in multiset(order);
      assert order[k] in cs && order[k] in listed;
    }
    forall l | l in live && b.Ours(l) ensures l in order[0..] {
      assert l in Members(listed) && l in cs;
      assert l in multiset(order);
    }
  }

  lemma NextDeleted(b: Binding, live: set<Lease>, order: seq<Lease>, next: nat)
    requires next < |order| && forall l :: l in live && b.Ours(l) ==> l in order[next..]
    ensures forall l :: l in live - {order[next]} && b.Ours(l) ==> l in order[next + 1..]
  {
    assert order[next..] == [order[next]] + order[next + 1..];
  }

  lemma DeleteNextKeepsPass(s: State)
    requires PassOK(s) && s.pass.DeleteLeases? && s.pass.next < |s.pass.order|
    ensures PassOK(DeleteStep(s))
    ensures DeleteStep(s).binding == s.binding && DeleteStep(s).live == s.live - {s.pass.order[s.pass.next]}
    ensures forall r :: r in DeleteStep(s).OurLeases() ==> r in s.pass.order[s.pass.next + 1..]
  {
    assert forall l :: l in s.live && s.binding.Ours(l) ==> l in s.OurLeases();
    NextDeleted(s.binding, s.live, s.pass.order, s.pass.next);
  }

  lemma DeleteNextKeepsLog(s: State)
    requires Inv(s) && s.pass.DeleteLeases? && s.pass.next < |s.pass.order| && s.pass.order[s.pass.next] in s.live
    ensures
      var s' := DeleteStep(s);
      LogOK(s.binding, s'.log) && AccessRevoked in s'.log
      && forall i :: 0 <= i < |s'.log| ==> !s'.log[i].FinalizerRemoved?
  {
    var DeleteLeases(order, next) := s.pass;
    var l := order[next];
    var remaining := DeleteStep(s).OurLeases();
    DeleteNextKeepsPass(s);
    var e := LeaseDeleted(l, remaining);
    forall r | r in remaining ensures Deletable(s.binding, r) && (l.Mutation() ==> r.Mutation()) {
      var k :| next < k < |order| && order[k] == r;
    }
    assert (s.log + [e])[..|s.log|] == s.log;
    AppendEvent(s.binding, s.log, e);
    var i :| 0 <= i < |s.log| && s.log[i] == AccessRevoked;
    assert (s.log + [e])[i] == AccessRevoked;
  }

  lemma DeleteNextKeepsInv(s: State)
    requires Inv(s) && s.pass.DeleteLeases?
    ensures Inv(DeleteStep(s))
  {
    if s.pass.next < |s.pass.order| {
      DeleteNextKeepsPass(s);
      if s.pass.order[s.pass.next] in s.live { DeleteNextKeepsLog(s); }
    } else {
      assert s.pass.order[s.pass.next..] == [];
      assert DeleteStep(s).OurLeases() == s.OurLeases() == {};
    }
  }

  /** Appending an event to the log of a state that still has its finalizer. */
  lemma LoggedKeepsInv(s: State, e: Event)
    requires LogOK(s.binding, s.log) && (forall i :: 0 <= i < |s.log| ==> !s.log[i].FinalizerRemoved?)
    requires s.revoked ==> AccessRevoked in s.log
    requires e == AccessRevoked || (s.revoked && !e.LeaseDeleted?)
    requires e.NodeDeleted? ==> e.remaining == {}
    requires e.FinalizerRemoved? ==> e.nodeGone
    ensures LogOK(s.binding, s.log + [e]) && AccessRevoked in s.log + [e]
  {
    var longer := s.log + [e];
    assert longer[..|s.log|] == s.log && longer[|s.log|] == e;
    AppendEvent(s.binding, s.log, e);
    if s.revoked {
      var i :| 0 <= i < |s.log| && s.log[i] == AccessRevoked;
      assert longer[i] == AccessRevoked;
    }
  }

  lemma LossKeepsInv(s: State, a: Action)
    requires Inv(s) && Enabled(s, a) && (a.LeaseLost? || a.NodeLost?)
    ensures Inv(Apply(s, a))
  {
    var s' := Apply(s, a);
    assert s'.OurLeases() <= s.OurLeases();
    if s.CanonicalPresent() {
      var l :| l in s.live && s.Canonical(l);
      assert l in s'.live && s'.Canonical(l);
    }
  }

  lemma StepKeepsInv(s: State, a: Action)
    requires Inv(s) && Enabled(s, a)
    ensures Inv(Apply(s, a))
  {
    match a
    case List(listed) => ListKeepsInv(s, listed);
    case DeleteNext => DeleteNextKeepsInv(s);
    case RevokeAccess => LoggedKeepsInv(s, AccessRevoked);
    case RemoveNode => LoggedKeepsInv(s, NodeDeleted(s.OurLeases())); assert Apply(s, a).OurLeases() == s.OurLeases();
    case Finish => LoggedKeepsInv(s, FinalizerRemoved(!s.node));
    case LeaseLost(_) => LossKeepsInv(s, a);
    case NodeLost => LossKeepsInv(s, a);
    case Begin(_) =>
    case QuiesceWorkers =>
    case RetirePriorAccess =>
    case Stop =>
    case WorkerWrites(_) =>
  }

  lemma {:induction false} RunKeepsInv(s: State, actions: seq<Action>)
    requires Inv(s) && Runs(s, actions)
    ensures Inv(End(s, actions))
    decreases actions
  {
    if actions != [] {
      StepKeepsInv(s, actions[0]);
      RunKeepsInv(Apply(s, actions[0]), actions[1..]);
    }
  }

  predicate Initial(s: State) {
    && s.log == [] && s.pass == Idle && s.finalizer && s.CanonicalPresent()
    && !s.revoked && !s.workersStopped && !s.bindingsCleared
  }

  /** In every crash-and-retry run the effects keep the order of `EventOK`. */
  lemma DeletionEffectsOrdered(s: State, actions: seq<Action>)
    requires Initial(s) && Runs(s, actions)
    ensures LogOK(End(s, actions).binding, End(s, actions).log)
  {
    RunKeepsInv(s, actions);
  }

  /** An attempt that listed a single mutation Lease deletes it last of all. */
  lemma SoleFenceDeletedLast(s: State, actions: seq<Action>)
    requires Initial(s) && Runs(s, actions) && End(s, actions).pass.DeleteLeases?
    requires
      var DeleteLeases(order, next) := End(s, actions).pass;
      next < |order| && order[next].Mutation() && AtMostOneMutation(order)
    ensures DeleteStep(End(s, actions)).OurLeases() == {}
  {
    RunKeepsInv(s, actions);
    DeleteNextKeepsPass(End(s, actions));
  }

  /** A crash after the mutation Lease is gone does not strand the device: the
      next attempt passes the settled check whenever the other authorities are idle. */
  lemma RetryPassesSettledCheck(s: State, actions: seq<Action>)
    requires Initial(s) && Runs(s, actions)
    ensures Settled(End(s, actions), true)
  {
    RunKeepsInv(s, actions);
  }

  // ---- Every attempt can be resumed to the end -----------------------------

  lemma {:induction false} Extend(s: State, actions: seq<Action>, a: Action)
    requires Runs(s, actions) && Enabled(End(s, actions), a)
    ensures Runs(s, actions + [a]) && End(s, actions + [a]) == Apply(End(s, actions), a)
    decreases actions
  {
    if actions == [] {
      assert [a][1..] == [] && Runs(Apply(s, a), []);
      assert actions + [a] == [a];
    } else {
      assert (actions + [a])[1..] == actions[1..] + [a];
      Extend(Apply(s, actions[0]), actions[1..], a);
    }
  }

  /** An attempt that has listed validated Leases can delete them all. */
  lemma {:induction false} DeletesRunOut(s: State, prefix: seq<Action>) returns (actions: seq<Action>)
    requires Runs(s, prefix) && Inv(End(s, prefix)) && End(s, prefix).pass.DeleteLeases?
    ensures Runs(s, actions) && Inv(End(s, actions)) && End(s, actions).pass == DeleteNode
    decreases |End(s, prefix).pass.order| - End(s, prefix).pass.next
  {
    var here := End(s, prefix);
    Extend(s, prefix, DeleteNext);
    DeleteNextKeepsInv(here);
    actions := prefix + [DeleteNext];
    if here.pass.next < |here.pass.order| {
      actions := DeletesRunOut(s, actions);
    }
  }

  lemma AttemptReachesDeletes(s: State, listed: seq<Lease>) returns (actions: seq<Action>)
    requires Inv(s) && s.finalizer && Lists(listed, s.live) && s.CurrentBinding().AllSafe(listed)
    ensures Runs(s, actions) && End(s, actions).pass.DeleteLeases?
  {
    assert Runs(s, []);
    Extend(s, [], Stop);
    var s1 := Apply(s, Stop);
    assert s1.CanonicalPresent() <==> s.CanonicalPresent();
    Extend(s, [] + [Stop], Begin(true));
    Extend(s, [] + [Stop] + [Begin(true)], QuiesceWorkers);
    Extend(s, [] + [Stop] + [Begin(true)] + [QuiesceWorkers], RetirePriorAccess);
    Extend(s, [] + [Stop] + [Begin(true)] + [QuiesceWorkers] + [RetirePriorAccess], RevokeAccess);
    actions := [] + [Stop] + [Begin(true)] + [QuiesceWorkers] + [RetirePriorAccess] + [RevokeAccess];
    var here := End(s, actions);
    assert here.live == s.live && here.CurrentBinding() == s.CurrentBinding() && here.pass == ListLeases;
    Extend(s, actions, List(listed));
    actions := actions + [List(listed)];
  }

  /** From every reachable state, wherever earlier attempts stopped, one more
      attempt can finish the deletion as soon as the listed Leases validate and
      the other authorities are idle. */
  lemma AttemptCanFinish(s: State, listed: seq<Lease>) returns (actions: seq<Action>)
    requires Inv(s) && s.finalizer && Lists(listed, s.live) && s.CurrentBinding().AllSafe(listed)
    ensures Runs(s, actions)
    ensures !End(s, actions).finalizer && !End(s, actions).node && End(s, actions).OurLeases() == {}
  {
    var listedAll := AttemptReachesDeletes(s, listed);
    RunKeepsInv(s, listedAll);
    var deleted := DeletesRunOut(s, listedAll);
    var here := End(s, deleted);
    Extend(s, deleted, RemoveNode);
    StepKeepsInv(here, RemoveNode);
    Extend(s, deleted + [RemoveNode], Finish);
    actions := deleted + [RemoveNode] + [Finish];
    assert End(s, actions).OurLeases() == End(s, deleted + [RemoveNode]).OurLeases();
  }
}
