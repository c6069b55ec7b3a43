/** The wrapper that polls a provider without notifications of its own, and the markers that keep a poll from
    reporting a pod that is being deleted as lost. */
module SyncWrapper {
  import opened Pods
  import opened PodSync

  type Key = string

  // ----- The statuses that the wrapper makes up -----

  const EXIT_CODE_NOT_FOUND: int := -137

  const TERMINATED_MESSAGE: string := "Container was terminated. The exit code may not reflect the real exit code"

  function TerminatedContainer(c: ContainerStatus, now: int): ContainerStatus {
    var t := Termination(0, "Terminated", TERMINATED_MESSAGE, c.state.running, now, "");
    c.(state := c.state.(terminated := Some(t)))
  }

  function LostContainer(c: ContainerStatus, now: int): ContainerStatus {
    if c.state.running.None? then c
    else c.(state := c.state.(terminated := Some(Termination(EXIT_CODE_NOT_FOUND, "NotFound",
                                                             "Container was not found and was likely deleted",
                                                             c.state.running, now, c.containerID)),
                              running := None))
  }

  /** The container is as before but for its termination. */
  predicate TerminatedAs(before: ContainerStatus, after: ContainerStatus, t: Termination) {
    && after.name == before.name && after.containerID == before.containerID
    && after.state.waiting == before.state.waiting && after.state.terminated == Some(t)
  }

  /** Every container is reported as terminated now, having started when it was running; the exit code is not known. */
  predicate AfterDeletion(status: PodStatus, now: int, r: PodStatus) {
    && r.phase == Succeeded && r.reason == "Terminated" && r.message == status.message
    && |r.containerStatuses| == |status.containerStatuses|
    && forall i | 0 <= i < |r.containerStatuses| ::
         var before, after := status.containerStatuses[i], r.containerStatuses[i];
         && TerminatedAs(before, after,
                         Termination(0, "Terminated", TERMINATED_MESSAGE, before.state.running, now, ""))
         && after.state.running == before.state.running
  }

  /** Every running container is reported as terminated now with the exit code -137; the others are left alone. */
  predicate AfterLoss(status: PodStatus, now: int, r: PodStatus) {
    && r.phase == Failed && r.reason == "NotFound"
    && r.message == "The pod status was not found and may have been deleted from the provider"
    && |r.containerStatuses| == |status.containerStatuses|
    && forall i | 0 <= i < |r.containerStatuses| ::
         var before, after := status.containerStatuses[i], r.containerStatuses[i];
         if before.state.running.None? then after == before
         else && TerminatedAs(before, after,
                              Termination(-137, "NotFound", "Container was not found and was likely deleted",
                                          before.state.running, now, before.containerID))
              && after.state.running.None?
  }

  /** The status after a deletion: every container terminated, whatever it was doing. */
  method TerminatedStatus(status: PodStatus, now: int) returns (r: PodStatus)
    ensures AfterDeletion(status, now, r) && !AnyRunning(r)
  {
    var cs := status.containerStatuses;
    for i := 0 to |cs|
      invariant |cs| == |status.containerStatuses|
      invariant forall j | 0 <= j < i :: cs[j] == TerminatedContainer(status.containerStatuses[j], now)
      invariant forall j | i <= j < |cs| :: cs[j] == status.containerStatuses[j]
    {
      cs := cs[i := TerminatedContainer(cs[i], now)];
    }
    r := PodStatus(Succeeded, "Terminated", status.message, cs);
  }

  /** No state at all was reported for the container. */
  predicate Stateless(s: ContainerState) {
    s.running.None? && !s.waiting && s.terminated.None?
  }

  /** The status of a pod that the provider no longer knows. It leaves a container without any state as it is, and
      such a container counts as running. */
  method LostStatus(status: PodStatus, now: int) returns (r: PodStatus)
    ensures AfterLoss(status, now, r)
    ensures AnyRunning(r) <==>
            exists i :: 0 <= i < |status.containerStatuses| && Stateless(status.containerStatuses[i].state)
  {
    var cs := status.containerStatuses;
    for i := 0 to |cs|
      invariant |cs| == |status.containerStatuses|
      invariant forall j | 0 <= j < i :: cs[j] == LostContainer(status.containerStatuses[j], now)
      invariant forall j | i <= j < |cs| :: cs[j] == status.containerStatuses[j]
    {
      if cs[i].state.running.None? {
        continue;
      }
      cs := cs[i := LostContainer(cs[i], now)];
    }
    r := PodStatus(Failed, "NotFound",
                   "The pod status was not found and may have been deleted from the provider", cs);
    forall i | 0 <= i < |cs|
      ensures ContainerRunning(cs[i].state) <==> Stateless(status.containerStatuses[i].state)
    {
    }
    if AnyRunning(r) {
      var i :| 0 <= i < |cs| && ContainerRunning(cs[i].state);
      assert Stateless(status.containerStatuses[i].state);
    }
    if i :| 0 <= i < |cs| && Stateless(status.containerStatuses[i].state) {
      assert ContainerRunning(cs[i].state);
    }
  }

  // ----- The wrapper -----

  /** What the provider answers when asked for a status. */
  datatype Answer = Known(status: PodStatus) | NoStatus | NotFoundError | OtherError

  datatype Notice =
    | Reported(key: Key, status: PodStatus)
    | Terminated(key: Key, status: PodStatus)
    | Lost(key: Key, status: PodStatus)

  /** The poll takes the pod for lost: the provider has nothing to say about it, nobody asked for its deletion, and
      it was up already or is older than a minute. */
  predicate TakenForLost(status: PodStatus, answer: Answer, young: bool, marked: bool) {
    && (answer.NoStatus? || answer.NotFoundError?) && !marked
    && (status.phase == Phase.Running || !young)
  }

  class Wrapper {
    var deletedPods: set<Key>
    var notices: seq<Notice>

    constructor ()
      ensures deletedPods == {} && notices == []
    {
      deletedPods, notices := {}, [];
    }

    method DeletePodKey(key: Key)
      modifies this`deletedPods
      ensures deletedPods == old(deletedPods) - {key}
    {
      deletedPods := deletedPods - {key};
    }

    /** The first part of DeletePod, before the provider is called. */
    method BeginDelete(key: Key)
      modifies this`deletedPods
      ensures deletedPods == old(deletedPods) + {key}
    {
      deletedPods := deletedPods + {key};
    }

    /** The second part of DeletePod, after the provider has answered. */
    method EndDelete(key: Key, status: PodStatus, failed: bool, now: int)
      modifies this
      ensures deletedPods == if failed then old(deletedPods) - {key} else old(deletedPods)
      ensures if failed || IsTerminal(status) then notices == old(notices)
              else && |notices| == |old(notices)| + 1 && notices[..|old(notices)|] == old(notices)
                   && var n := notices[|old(notices)|];
                   n.Terminated? && n.key == key && AfterDeletion(status, now, n.status) && !AnyRunning(n.status)
    {
      if failed {
        deletedPods := deletedPods - {key};
        return;
      }
      if IsTerminal(status) {
        return;
      }
      var updated := TerminatedStatus(status, now);
      notices := notices + [Notice.Terminated(key, updated)];
    }

    /** One poll of one pod; the provider has already answered. */
    method UpdatePodStatus(key: Key, status: PodStatus, answer: Answer, young: bool, now: int)
      modifies this`notices
      ensures answer.Known? ==> notices == old(notices) + [Reported(key, answer.status)]
      ensures TakenForLost(status, answer, young, key in deletedPods) ==>
                && |notices| == |old(notices)| + 1 && notices[..|old(notices)|] == old(notices)
                && var n := notices[|old(notices)|];
                n.Lost? && n.key == key && AfterLoss(status, now, n.status)
      ensures !answer.Known? && !TakenForLost(status, answer, young, key in deletedPods) ==> notices == old(notices)
    {
      if answer.OtherError? {
        return;
      }
      if answer.Known? {
        notices := notices + [Reported(key, answer.status)];
        return;
      }
      if key in deletedPods {
        return;
      }
      if status.phase != Phase.Running && young {
        return;
      }
      var lost := LostStatus(status, now);
      notices := notices + [Lost(key, lost)];
    }

    /** Performs one event of a run. */
    method Do(e: Event)
      modifies this
      ensures deletedPods == Step(old(deletedPods), e)
      ensures |old(notices)| <= |notices| && notices[..|old(notices)|] == old(notices)
      ensures Emits(e, e.key in old(deletedPods), notices[|old(notices)|..])
    {
      match e
      case Begin(k) => BeginDelete(k);
      case End(k, status, failed, now) => EndDelete(k, status, failed, now);
      case Cleanup(k) => DeletePodKey(k);
      case Poll(k, status, answer, young, now) => UpdatePodStatus(k, status, answer, young, now);
    }
  }

  // ----- Markers over runs -----

  datatype Event =
    | Begin(key: Key)
    | End(key: Key, status: PodStatus, failed: bool, now: int)
    | Cleanup(key: Key)
    | Poll(key: Key, status: PodStatus, answer: Answer, young: bool, now: int)

  function Step(markers: set<Key>, e: Event): set<Key> {
    match e
    case Begin(k) => markers + {k}
    case End(k, _, failed, _) => if failed then markers - {k} else markers
    case Cleanup(k) => markers - {k}
    case Poll(_, _, _, _, _) => markers
  }

  /** The event is a poll that takes its pod for lost. */
  predicate Loses(e: Event, marked: bool) {
    e.Poll? && TakenForLost(e.status, e.answer, e.young, marked)
  }

  /** The notices that the event sends, given whether its pod is marked as being deleted. */
  predicate Emits(e: Event, marked: bool, out: seq<Notice>) {
    if e.End? && !e.failed && e.status.phase != Succeeded && e.status.phase != Failed then
      && |out| == 1 && out[0].Terminated? && out[0].key == e.key
      && AfterDeletion(e.status, e.now, out[0].status) && !AnyRunning(out[0].status)
    else if e.Poll? && e.answer.Known? then out == [Reported(e.key, e.answer.status)]
    else if Loses(e, marked) then
      |out| == 1 && out[0].Lost? && out[0].key == e.key && AfterLoss(e.status, e.now, out[0].status)
    else out == []
  }

  predicate Unmarks(e: Event, key: Key) {
    (e.Cleanup? && e.key == key) || (e.End? && e.key == key && e.failed)
  }

  /** The last event that concerns the marker of `key` set it. */
  ghost predicate MarkedBy(events: seq<Event>, key: Key) {
    exists i :: 0 <= i < |events| && events[i] == Begin(key) &&
                forall j | i < j < |events| :: !Unmarks(events[j], key)
  }

  function Markers(events: seq<Event>): set<Key> {
    if events == [] then {} else Step(Markers(events[..|events| - 1]), events[|events| - 1])
  }

  lemma {:induction false} MarkersAreLast(events: seq<Event>, key: Key)
    ensures key in Markers(events) <==> MarkedBy(events, key)
    decreases |events|
  {
    if events != [] {
      var n := |events| - 1;
      var prefix, e := events[..n], events[n];
      MarkersAreLast(prefix, key);
      if e == Begin(key) {
        assert MarkedBy(events, key);
      } else if Unmarks(e, key) {
        assert !MarkedBy(events, key);
      } else {
        if MarkedBy(prefix, key) {
          var i :| 0 <= i < n && prefix[i] == Begin(key) && forall j | i < j < n :: !Unmarks(prefix[j], key);
          assert events[i] == Begin(key) && forall j | i < j < |events| :: !Unmarks(events[j], key);
        }
        if MarkedBy(events, key) {
          var i :| 0 <= i < |events| && events[i] == Begin(key) &&
                   forall j | i < j < |events| :: !Unmarks(events[j], key);
          assert i < n && prefix[i] == Begin(key) && forall j | i < j < n :: !Unmarks(prefix[j], key);
        }
      }
    }
  }

  function Flatten(sent: seq<seq<Notice>>): seq<Notice> {
    if sent == [] then [] else Flatten(sent[..|sent| - 1]) + sent[|sent| - 1]
  }

  /** `sent[k]` is exactly what event `k` of the run sends, with the marker read off the events before it. */
  ghost predicate SentBy(events: seq<Event>, k: nat, out: seq<Notice>)
    requires k < |events|
  {
    Emits(events[k], MarkedBy(events[..k], events[k].key), out)
  }

  /** A poll reports its pod as lost if and only if the provider has nothing to say about a pod that is up or old
      enough, and no deletion request is in force at that moment: from a deletion request until the next failing
      one or cleanup for the same pod, whatever else happens and however many deletions overlap, none does. */
  method Run(events: seq<Event>) returns (w: Wrapper, sent: seq<seq<Notice>>)
    ensures w.deletedPods == Markers(events) && w.notices == Flatten(sent)
    ensures |sent| == |events| && forall k | 0 <= k < |events| :: SentBy(events, k, sent[k])
    ensures forall k | 0 <= k < |events| ::
              (exists n <- sent[k] :: n.Lost?) <==>
              && events[k].Poll? && (events[k].answer.NoStatus? || events[k].answer.NotFoundError?)
              && (events[k].status.phase == Phase.Running || !events[k].young)
              && !MarkedBy(events[..k], events[k].key)
  {
    w := new Wrapper();
    sent := [];
    for k := 0 to |events|
      invariant fresh(w)
      invariant w.deletedPods == Markers(events[..k]) && w.notices == Flatten(sent)
      invariant |sent| == k && forall i | 0 <= i < k :: SentBy(events, i, sent[i])
    {
      var before := |w.notices|;
      assert events[..k + 1][..k] == events[..k];
      MarkersAreLast(events[..k], events[k].key);
      w.Do(events[k]);
      ghost var earlier := sent;
      sent := sent + [w.notices[before..]];
      assert sent[..k] == earlier;
    }
    assert events[..|events|] == events;
    forall k | 0 <= k < |events|
      ensures (exists n <- sent[k] :: n.Lost?) <==> Loses(events[k], MarkedBy(events[..k], events[k].key))
    {
      LostIffLoses(events[k], MarkedBy(events[..k], events[k].key), sent[k]);
    }
  }

  lemma LostIffLoses(e: Event, marked: bool, out: seq<Notice>)
    requires Emits(e, marked, out)
    ensures (exists n <- out :: n.Lost?) <==> Loses(e, marked)
  {
    if Loses(e, marked) {
      assert out[0] in out;
    }
  }
}
