/** The per-pod record of the controller and the three critical sections that run under its lock. */
module KnownPods {
  import opened Pods

  /** The value of a knownPod record at one moment. */
  datatype Record = Record(fromProvider: Option<Pod>, lastPodUsed: Option<Pod>, skipped: bool)

  const EMPTY_RECORD: Record := Record(None, None, false)

  /** What the status worker does after looking at the record. */
  datatype Decision = NilStatus | Skip | Overwrite(pod: Pod)

  /** The locked part of updatePodStatus. The stored status is dereferenced without a nil check. */
  function Decide(r: Record, fromKubernetes: Pod): (Record, Decision) {
    match r.fromProvider
    case None => (r, NilStatus)
    case Some(p) =>
      if fromKubernetes.status == p.status && p.deletionTimestamp.None? then
        (r.(skipped := true), Skip)
      else
        (r.(skipped := false), Overwrite(p.(uid := fromKubernetes.uid)))
  }

  /** The locked part of enqueuePodStatusUpdate; the flag says whether the key is then enqueued. */
  function StoreStatus(r: Record, pod: Pod): (Record, bool) {
    if r.fromProvider == Some(pod) then (r, false) else (r.(fromProvider := Some(pod)), true)
  }

  /** The dereference in the update handler is safe. */
  predicate Observable(r: Record) {
    r.skipped ==> r.fromProvider.Some?
  }

  /** The locked part of the informer's update handler; the flag says whether the key is enqueued. */
  function Observe(r: Record, seen: PodStatus): (Record, bool)
    requires Observable(r)
  {
    if r.skipped && seen != r.fromProvider.value.status then (r.(skipped := false), true) else (r, false)
  }

  class KnownPod {
    var lastPodStatusReceivedFromProvider: Option<Pod>
    var lastPodUsed: Option<Pod>
    var lastPodStatusUpdateSkipped: bool

    ghost function Value(): Record
      reads this
    {
      Record(lastPodStatusReceivedFromProvider, lastPodUsed, lastPodStatusUpdateSkipped)
    }

    constructor ()
      ensures Value() == EMPTY_RECORD
    {
      lastPodStatusReceivedFromProvider := None;
      lastPodUsed := None;
      lastPodStatusUpdateSkipped := false;
    }

    method DecideStatusUpdate(fromKubernetes: Pod) returns (decision: Decision)
      modifies this`lastPodStatusUpdateSkipped
      ensures (Value(), decision) == Decide(old(Value()), fromKubernetes)
    {
      if lastPodStatusReceivedFromProvider.None? {
        return NilStatus;
      }
      var fromProvider := lastPodStatusReceivedFromProvider.value;
      if fromProvider.uid != fromKubernetes.uid {
        fromProvider := fromProvider.(uid := fromKubernetes.uid);
      }
      if fromKubernetes.status == fromProvider.status && fromProvider.deletionTimestamp.None? {
        lastPodStatusUpdateSkipped := true;
        return Skip;
      }
      lastPodStatusUpdateSkipped := false;
      return Overwrite(fromProvider);
    }

    method RecordProviderStatus(pod: Pod) returns (enqueue: bool)
      modifies this`lastPodStatusReceivedFromProvider
      ensures (Value(), enqueue) == StoreStatus(old(Value()), pod)
    {
      if lastPodStatusReceivedFromProvider == Some(pod) {
        return false;
      }
      lastPodStatusReceivedFromProvider := Some(pod);
      return true;
    }

    method ObserveUpdate(seen: PodStatus) returns (enqueue: bool)
      requires Observable(Value())
      modifies this`lastPodStatusUpdateSkipped
      ensures (Value(), enqueue) == Observe(old(Value()), seen)
    {
      enqueue := false;
      if lastPodStatusUpdateSkipped && seen != lastPodStatusReceivedFromProvider.value.status {
        enqueue := true;
        lastPodStatusUpdateSkipped := false;
      }
    }
  }
}
