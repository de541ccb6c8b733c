/** The private reader of one planning pass. It answers from four lists taken at
    construction, always by copy, and delegates everything else. */
module PlanningSnapshot {
  import opened Wrappers

  type Labels = map<string, string>

  datatype Kind = Pod | ReplicaSet | Node | Deployment | Other

  datatype Key = Key(ns: string, name: string)

  /** The content of one API object. */
  datatype Value = Value(kind: Kind, key: Key, labels: Labels, payload: string)

  /** An API object in memory; whoever holds a reference may change it. */
  class Object {
    var value: Value

    constructor (value: Value)
      ensures this.value == value
    {
      this.value := value;
    }
  }

  class ObjectList {
    var items: seq<Object>

    constructor ()
      ensures items == []
    {
      items := [];
    }
  }

  datatype Answer = Found(value: Value) | NotFound | Cancelled

  datatype ListAnswer = Listed(values: seq<Value>) | ListCancelled

  // ---- A reader over fixed content -----------------------------------------

  function GetFrom(content: seq<Value>, kind: Kind, key: Key): Answer {
    if content == [] then NotFound
    else if content[0].kind == kind && content[0].key == key then Found(content[0])
    else GetFrom(content[1..], kind, key)
  }

  predicate Selected(selector: Option<Labels -> bool>, v: Value) { selector.None? || selector.value(v.labels) }

  function ListFrom(content: seq<Value>, kind: Kind, ns: string, selector: Option<Labels -> bool>): seq<Value> {
    if content == [] then []
    else
      var v := content[|content| - 1];
      ListFrom(content[..|content| - 1], kind, ns, selector)
      + if v.kind == kind && v.key.ns == ns && Selected(selector, v) then [v] else []
  }

  /** A complete list of one kind: one namespace, no two objects of one key. */
  ghost predicate IsListOf(items: seq<Value>, kind: Kind, ns: string) {
    && (forall i :: 0 <= i < |items| ==> items[i].kind == kind && items[i].key.ns == ns)
    && (forall i, j :: 0 <= i < j < |items| ==> items[i].key != items[j].key)
  }

  lemma {:induction false} GetFromList(items: seq<Value>, kind: Kind, key: Key, i: nat)
    requires IsListOf(items, kind, key.ns) && i < |items| && items[i].key == key
    ensures GetFrom(items, kind, key) == Found(items[i])
  {
    if i > 0 {
      assert items[0].key != items[i].key;
      GetFromList(items[1..], kind, key, i - 1);
    }
  }

  lemma {:induction false} GetMissing(items: seq<Value>, kind: Kind, key: Key)
    requires forall i :: 0 <= i < |items| ==> items[i].key != key
    ensures GetFrom(items, kind, key) == NotFound
  {
    if items != [] { GetMissing(items[1..], kind, key); }
  }

  // ---- Indexes over private objects ----------------------------------------

  ghost predicate Holds(objects: seq<Object>, items: seq<Value>)
    reads objects
  {
    |objects| == |items| && forall i :: 0 <= i < |items| ==> objects[i].value == items[i]
  }

  /** Every listed object is indexed by its key, and nothing else is. */
  ghost predicate Indexes(index: map<Key, Object>, items: seq<Value>, kind: Kind, ns: string)
    reads index.Values
  {
    && IsListOf(items, kind, ns)
    && (forall i :: 0 <= i < |items| ==> items[i].key in index && index[items[i].key].value == items[i])
    && (forall k :: k in index ==> exists i :: 0 <= i < |items| && items[i].key == k)
  }

  lemma IndexAnswersGet(index: map<Key, Object>, items: seq<Value>, kind: Kind, ns: string, key: Key)
    requires Indexes(index, items, kind, ns) && key.ns == ns
    ensures GetFrom(items, kind, key) == if key in index then Found(index[key].value) else NotFound
  {
    if key in index {
      var i :| 0 <= i < |items| && items[i].key == key;
      GetFromList(items, kind, key, i);
    } else {
      GetMissing(items, kind, key);
    }
  }

  method Serve(index: map<Key, Object>, ghost items: seq<Value>, kind: Kind, ns: string, key: Key) returns (r: Answer)
    requires Indexes(index, items, kind, ns) && key.ns == ns
    ensures r == GetFrom(items, kind, key)
  {
    IndexAnswersGet(index, items, kind, ns, key);
    r := if key in index then Found(index[key].value) else NotFound;
  }

  method CopyAll(items: seq<Value>) returns (objects: seq<Object>)
    ensures Holds(objects, items)
    ensures forall i :: 0 <= i < |objects| ==> fresh(objects[i])
  {
    objects := [];
    for i := 0 to |items|
      invariant |objects| == i
      invariant forall k :: 0 <= k < i ==> fresh(objects[k]) && objects[k].value == items[k]
    {
      var o := new Object(items[i]);
      objects := objects + [o];
    }
  }

  /** Copies the selected objects, in order. */
  method CopySelected(objects: seq<Object>, ghost items: seq<Value>, ghost kind: Kind, ghost ns: string,
                      selector: Option<Labels -> bool>)
    returns (values: seq<Value>, copies: seq<Object>)
    requires Holds(objects, items) && IsListOf(items, kind, ns)
    ensures values == ListFrom(items, kind, ns, selector)
    ensures Holds(copies, values) && forall i :: 0 <= i < |copies| ==> fresh(copies[i])
  {
    values, copies := [], [];
    for i := 0 to |objects|
      invariant values == ListFrom(items[..i], kind, ns, selector)
      invariant |copies| == |values|
      invariant forall k :: 0 <= k < |copies| ==> fresh(copies[k]) && copies[k].value == values[k]
    {
      assert items[..i + 1][..i] == items[..i];
      if Selected(selector, objects[i].value) {
        var copy := new Object(objects[i].value);
        values, copies := values + [copy.value], copies + [copy];
      }
    }
    assert items[..|items|] == items;
  }

  method BuildIndex(items: seq<Value>, ghost kind: Kind, ghost ns: string) returns (index: map<Key, Object>)
    requires IsListOf(items, kind, ns)
    ensures Indexes(index, items, kind, ns)
    ensures fresh(index.Values)
  {
    index := map[];
    for i := 0 to |items|
      invariant fresh(index.Values)
      invariant forall k :: 0 <= k < i ==> items[k].key in index && index[items[k].key].value == items[k]
      invariant forall k :: k in index ==> exists j :: 0 <= j < i && items[j].key == k
    {
      var o := new Object(items[i]);
      assert forall k :: 0 <= k < i ==> items[k].key != items[i].key;
      assert index[items[i].key := o].Values <= index.Values + {o};
      index := index[items[i].key := o];
    }
  }

  /** The four lists as they were read. */
  datatype Lists = Lists(pods: seq<Value>, replicaSets: seq<Value>, nodes: seq<Value>, deployments: seq<Value>)

  ghost predicate Consistent(lists: Lists, ns: string) {
    && IsListOf(lists.pods, Pod, ns) && IsListOf(lists.replicaSets, ReplicaSet, ns)
    && IsListOf(lists.nodes, Node, "") && IsListOf(lists.deployments, Deployment, ns)
  }

  class PlanningWorkerSnapshot {
    const namespace: string
    const pods: seq<Object>
    const replicaSets: map<Key, Object>
    const nodes: map<Key, Object>
    const deployments: map<Key, Object>
    ghost const frozen: Lists

    ghost function Repr(): set<object> {
      (set o | o in pods) + replicaSets.Values + nodes.Values + deployments.Values
    }

    /** The private objects still hold what was read at construction. */
    ghost predicate Valid()
      reads Repr()
    {
      && namespace != ""
      && Consistent(frozen, namespace)
      && Holds(pods, frozen.pods)
      && Indexes(replicaSets, frozen.replicaSets, ReplicaSet, namespace)
      && Indexes(nodes, frozen.nodes, Node, "")
      && Indexes(deployments, frozen.deployments, Deployment, namespace)
    }

    constructor (namespace: string, ghost lists: Lists, pods: seq<Object>, replicaSets: map<Key, Object>,
                 nodes: map<Key, Object>, deployments: map<Key, Object>)
      requires namespace != "" && Consistent(lists, namespace)
      requires Holds(pods, lists.pods) && Indexes(replicaSets, lists.replicaSets, ReplicaSet, namespace)
      requires Indexes(nodes, lists.nodes, Node, "") && Indexes(deployments, lists.deployments, Deployment, namespace)
      ensures Valid() && frozen == lists && this.namespace == namespace
      ensures Repr() == (set o | o in pods) + replicaSets.Values + nodes.Values + deployments.Values
    {
      this.namespace, this.pods, this.replicaSets := namespace, pods, replicaSets;
      this.nodes, this.deployments, frozen := nodes, deployments, lists;
    }

    /** Writes a copy of the frozen object, or what the live reader answers,
        into the caller's object. */
    method Get(kind: Kind, key: Key, options: bool, cancelled: bool, out: Object, live: seq<Value>)
      returns (r: Answer)
      requires Valid() && out !in Repr()
      modifies out
      ensures Valid()
      ensures r == FrozenGet(frozen, namespace, kind, key, options, cancelled, live)
      ensures out.value == if r.Found? then r.value else old(out.value)
    {
      if cancelled { return Cancelled; }
      if !options {
        if kind == ReplicaSet && key.ns == namespace {
          r := Serve(replicaSets, frozen.replicaSets, kind, namespace, key);
        } else if kind == Node && key.ns == "" {
          r := Serve(nodes, frozen.nodes, kind, "", key);
        } else if kind == Deployment && key.ns == namespace {
          r := Serve(deployments, frozen.deployments, kind, namespace, key);
        } else {
          r := GetFrom(live, kind, key);
        }
      } else {
        r := GetFrom(live, kind, key);
      }
      if r.Found? { out.value := r.value; }
    }

    /** Fills the caller's list with fresh copies, in listing order. */
    method List(kind: Kind, ns: string, plain: bool, selector: Option<Labels -> bool>, cancelled: bool,
                out: ObjectList, live: seq<Value>)
      returns (r: ListAnswer)
      requires Valid()
      modifies out
      ensures Valid()
      ensures r == FrozenList(frozen, namespace, kind, ns, plain, selector, cancelled, live)
      ensures r.Listed? ==> Holds(out.items, r.values) && forall i :: 0 <= i < |out.items| ==> fresh(out.items[i])
      ensures r.ListCancelled? ==> out.items == old(out.items)
    {
      if cancelled { return ListCancelled; }
      if kind != Pod || ns != namespace || !plain {
        var values := ListFrom(live, kind, ns, selector);
        var objects := CopyAll(values);
        out.items := objects;
        return Listed(values);
      }
      var values, objects := CopySelected(pods, frozen.pods, Pod, ns, selector);
      out.items := objects;
      return Listed(values);
    }
  }

  datatype SnapshotError = MissingReaderOrNamespace | ListFailed

  /** Either all four lists were read, and the snapshot answers from exactly
      them, or there is no snapshot. */
  method NewPlanningWorkerSnapshot(reader: bool, namespace: string, lists: Option<Lists>)
    returns (r: Result<PlanningWorkerSnapshot, SnapshotError>)
    requires lists.Some? ==> Consistent(lists.value, namespace)
    ensures r.Ok? <==> reader && namespace != "" && lists.Some?
    ensures r.Ok? ==>
      r.value.Valid() && fresh(r.value) && fresh(r.value.Repr())
      && r.value.frozen == lists.value && r.value.namespace == namespace
  {
    if !reader || namespace == "" { return Err(MissingReaderOrNamespace); }
    if lists.None? { return Err(ListFailed); }
    var pods := CopyAll(lists.value.pods);
    var sets := BuildIndex(lists.value.replicaSets, ReplicaSet, namespace);
    var nodes := BuildIndex(lists.value.nodes, Node, "");
    var deployments := BuildIndex(lists.value.deployments, Deployment, namespace);
    var s := new PlanningWorkerSnapshot(namespace, lists.value, pods, sets, nodes, deployments);
    return Ok(s);
  }

  // ---- Agreement with a frozen reader --------------------------------------

  /** What a reader frozen at construction answers; other requests go to the
      live content of the moment. */
  function FrozenGet(
    frozen: Lists, ns: string, kind: Kind, key: Key, options: bool, cancelled: bool, live: seq<Value>): Answer
  {
    if cancelled then Cancelled
    else if options then GetFrom(live, kind, key)
    else match kind
      case ReplicaSet => GetFrom(if key.ns == ns then frozen.replicaSets else live, kind, key)
      case Node => GetFrom(if key.ns == "" then frozen.nodes else live, kind, key)
      case Deployment => GetFrom(if key.ns == ns then frozen.deployments else live, kind, key)
      case _ => GetFrom(live, kind, key)
  }

  function FrozenList(
    frozen: Lists, ns: string, kind: Kind, listNs: string, plain: bool, selector: Option<Labels -> bool>,
    cancelled: bool, live: seq<Value>): ListAnswer
  {
    if cancelled then ListCancelled
    else Listed(ListFrom(if kind == Pod && listNs == ns && plain then frozen.pods else live, kind, listNs, selector))
  }

  datatype Request =
    | GetRequest(kind: Kind, key: Key, options: bool, cancelled: bool, live: seq<Value>)
    | ListRequest(
        kind: Kind, ns: string, plain: bool, selector: Option<Labels -> bool>, cancelled: bool, live: seq<Value>)

  datatype Reply = GetReply(answer: Answer) | ListReply(list: ListAnswer)

  function FrozenReply(frozen: Lists, ns: string, q: Request): Reply {
    match q
    case GetRequest(kind, key, options, cancelled, live) =>
      GetReply(FrozenGet(frozen, ns, kind, key, options, cancelled, live))
    case ListRequest(kind, listNs, plain, selector, cancelled, live) =>
      ListReply(FrozenList(frozen, ns, kind, listNs, plain, selector, cancelled, live))
  }

  /** One request, after which everything handed over is overwritten. */
  method ScribbleOver(s: PlanningWorkerSnapshot, q: Request, scribble: Value) returns (reply: Reply)
    requires s.Valid()
    ensures s.Valid()
    ensures reply == FrozenReply(s.frozen, s.namespace, q)
  {
    match q {
      case GetRequest(_, _, _, _, _) => reply := ScribbleGet(s, q, scribble);
      case ListRequest(_, _, _, _, _, _) => reply := ScribbleList(s, q, scribble);
    }
  }

  method ScribbleGet(s: PlanningWorkerSnapshot, q: Request, scribble: Value) returns (reply: Reply)
    requires s.Valid() && q.GetRequest?
    ensures s.Valid()
    ensures reply == FrozenReply(s.frozen, s.namespace, q)
  {
    var out := new Object(scribble);
    var answer := s.Get(q.kind, q.key, q.options, q.cancelled, out, q.live);
    out.value := scribble;
    reply := GetReply(answer);
  }

  method ScribbleList(s: PlanningWorkerSnapshot, q: Request, scribble: Value) returns (reply: Reply)
    requires s.Valid() && q.ListRequest?
    ensures s.Valid()
    ensures reply == FrozenReply(s.frozen, s.namespace, q)
  {
    var out := new ObjectList();
    var answer := s.List(q.kind, q.ns, q.plain, q.selector, q.cancelled, out, q.live);
    Overwrite(out.items, scribble);
    reply := ListReply(answer);
  }

  method Overwrite(objects: seq<Object>, scribble: Value)
    modifies objects
    ensures forall i :: 0 <= i < |objects| ==> objects[i].value == scribble
  {
    for i := 0 to |objects|
      invariant forall k :: 0 <= k < i ==> objects[k].value == scribble
    {
      objects[i].value := scribble;
    }
  }

  /** A planning pass that overwrites every object it is handed still gets, for
      every request, the answer of the frozen reader. */
  method ScribblingSession(s: PlanningWorkerSnapshot, requests: seq<Request>, scribble: Value)
    returns (replies: seq<Reply>)
    requires s.Valid()
    ensures s.Valid()
    ensures |replies| == |requests|
    ensures forall i :: 0 <= i < |requests| ==> replies[i] == FrozenReply(s.frozen, s.namespace, requests[i])
  {
    replies := [];
    for n := 0 to |requests|
      invariant s.Valid() && |replies| == n
      invariant forall i :: 0 <= i < n ==> replies[i] == FrozenReply(s.frozen, s.namespace, requests[i])
    {
      var reply := ScribbleOver(s, requests[n], scribble);
      replies := replies + [reply];
    }
  }
}
