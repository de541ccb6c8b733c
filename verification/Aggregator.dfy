/** The in-process aggregator: one config worker per device key, started and
    cancelled by the reconciler under the ownership gate. */
module Aggregator {
  import opened Wrappers

  class DeviceWorker {
    const key: string
    const specHash: string
    var cancelled: bool

    constructor (key: string, specHash: string)
      ensures this.key == key && this.specHash == specHash && !cancelled
    {
      this.key, this.specHash, cancelled := key, specHash, false;
    }
  }

  /** What Reconcile reads of a device that still exists. */
  datatype View = View(driverRegistered: bool, owning: bool, owned: bool, password: Option<string>, specHash: string) {
    predicate MayRun() { driverRegistered && !owning && owned }
  }

  /** One pass: the device read may fail, and then find no device. */
  datatype Request = Request(key: string, read: Result<Option<View>, ()>, driverReady: bool) {
    predicate Stops() { read.Ok? && (read.value.None? || !read.value.value.MayRun()) }

    predicate Runs() { read.Ok? && read.value.Some? && read.value.value.MayRun() && read.value.value.password.Some? }

    predicate Starts(specHash: string) { Runs() && driverReady && read.value.value.specHash == specHash }
  }

  /** Some pass saw the device owned with this configuration, and no pass since
      has seen it otherwise. */
  ghost predicate Justified(requests: seq<Request>, n: nat, key: string, specHash: string)
    requires n <= |requests|
  {
    exists i :: 0 <= i < n && requests[i].key == key && requests[i].Starts(specHash)
      && forall j :: i < j < n && requests[j].key == key ==> !requests[j].Stops()
  }

  lemma JustifiedLater(requests: seq<Request>, n: nat, key: string, specHash: string)
    requires n < |requests| && Justified(requests, n, key, specHash)
    requires requests[n].key == key ==> !requests[n].Stops()
    ensures Justified(requests, n + 1, key, specHash)
  {
  }

  class AggregatedReconciler {
    var managed: map<string, DeviceWorker>
    ghost var started: set<DeviceWorker>

    /** The uncancelled workers are exactly the managed ones, each under its own key. */
    ghost predicate Valid()
      reads this, started
    {
      && (forall k :: k in managed ==> managed[k] in started && managed[k].key == k && !managed[k].cancelled)
      && (forall w :: w in started && !w.cancelled ==> w.key in managed && managed[w.key] == w)
    }

    constructor ()
      ensures Valid() && managed == map[] && started == {}
    {
      managed, started := map[], {};
    }

    method StopWorker(key: string)
      requires Valid()
      modifies this`managed, started
      ensures Valid() && managed == old(managed) - {key}
      ensures forall w :: w in started && w.key != key ==> w.cancelled == old(w.cancelled)
    {
      if key !in managed { return; }
      var w := managed[key];
      managed := managed - {key};
      w.cancelled := true;
    }

    /** Registers the worker before its goroutine runs; a driver or version
        failure starts nothing. */
    method StartWorker(key: string, specHash: string, driverReady: bool) returns (ok: bool)
      requires Valid() && key !in managed
      modifies this
      ensures Valid() && ok == driverReady
      ensures old(started) <= started && fresh(started - old(started))
      ensures if ok then
                && managed.Keys == old(managed).Keys + {key}
                && managed[key].specHash == specHash && fresh(managed[key])
                && (forall k :: k in old(managed) ==> managed[k] == old(managed)[k])
              else managed == old(managed) && started == old(started)
    {
      if !driverReady { return false; }
      var w := new DeviceWorker(key, specHash);
      managed := managed[key := w];
      started := started + {w};
      return true;
    }

    /** After a pass that read the device, a worker for the key runs only if the
        pass saw it owned by the aggregator and not in handover; other devices are
        untouched, and a failed read changes nothing. */
    method Reconcile(request: Request)
      requires Valid()
      modifies this, started
      ensures Valid()
      ensures request.Stops() ==> request.key !in managed
      ensures !request.Stops() && !request.Runs() ==> managed == old(managed)
      ensures request.Runs() ==>
        var specHash := request.read.value.value.specHash;
        && (request.key in managed ==> managed[request.key].specHash == specHash)
        && (request.driverReady ==> request.key in managed)
        && (request.key in old(managed) && old(managed)[request.key].specHash == specHash ==> managed == old(managed))
        && (!request.driverReady && request.key in managed ==> managed == old(managed))
      ensures forall k :: k != request.key ==> (k in managed <==> k in old(managed))
      ensures forall k :: k != request.key && k in managed ==> managed[k] == old(managed)[k]
      ensures old(started) <= started && fresh(started - old(started))
    {
      var key := request.key;
      if request.read.Err? { return; }
      var device := request.read.value;
      if device.None? || !device.value.driverRegistered || device.value.owning || !device.value.owned {
        StopWorker(key);
        return;
      }
      if device.value.password.None? { return; }
      if key in managed && managed[key].specHash == device.value.specHash { return; }
      StopWorker(key);
      var ok := StartWorker(key, device.value.specHash, request.driverReady);
    }

    /** Over any sequence of passes a worker runs for a key only if some pass saw
        the device owned with the worker's configuration and no later pass saw it
        otherwise, and no key ever has two uncancelled workers. */
    method Serve(requests: seq<Request>)
      requires Valid() && managed == map[]
      modifies this, started
      ensures Valid()
      ensures forall k :: k in managed ==> Justified(requests, |requests|, k, managed[k].specHash)
      ensures forall v, w :: v in started && w in started && !v.cancelled && !w.cancelled && v.key == w.key ==> v == w
    {
      for n := 0 to |requests|
        invariant Valid() && old(started) <= started && fresh(started - old(started))
        invariant forall k :: k in managed ==> Justified(requests, n, k, managed[k].specHash)
      {
        ghost var before := managed;
        ghost var hashes := map k | k in managed :: managed[k].specHash;
        Reconcile(requests[n]);
        forall k | k in managed ensures Justified(requests, n + 1, k, managed[k].specHash) {
          if k in before && managed[k] == before[k] {
            assert Justified(requests, n, k, hashes[k]);
            JustifiedLater(requests, n, k, hashes[k]);
          } else {
            assert requests[n].key == k && requests[n].Starts(managed[k].specHash);
          }
        }
      }
    }

    /** At most one uncancelled worker exists per device key. */
    lemma AtMostOneLiveWorker(v: DeviceWorker, w: DeviceWorker)
      requires Valid() && v in started && w in started && !v.cancelled && !w.cancelled && v.key == w.key
      ensures v == w && w.key in managed
    {
    }
  }
}
