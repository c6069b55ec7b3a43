/** When a pod that goes away in the provider is deleted on the API server. */
module PodStatusDeletion {
  import opened Pods
  import opened KnownPods
  import opened PodStatusProtocol
  import opened PodStatusConvergence
  import opened PodStatusProgress

  predicate Deleting(p: Pod) {
    p.deletionTimestamp.Some?
  }

  /** One pass of the worker is due for the provider's pod `p`, and nothing else is under way: the key is queued, and
      the informer and its handlers have seen the API pod `kube`. */
  ghost predicate PassDue(s: State, id: nat, kube: Pod, p: Pod)
    requires id < |s.local.records|
  {
    && s.local.records[id].fromProvider == Some(p)
    && s.local.worker.Idle? && s.local.queued && !AnyStored(s.local.notifiers)
    && s.view.api == Some(kube) && s.view.cache == Some(kube) && s.view.watch == [] && s.view.notes == []
  }

  /** The pass deletes the API pod: it is alive and not being deleted, the provider's pod is being deleted, and the
      statuses agree. */
  predicate Deletes(kube: Pod, p: Pod) {
    !IsTerminal(kube.status) && !Deleting(kube) && Deleting(p) && p.status == kube.status
  }

  /** The API pod is marked as being deleted, given that it was, or that the pass has deleted it. */
  ghost predicate Marked(v: View, kube: Pod, deleted: bool) {
    v.api.Some? && (Deleting(v.api.value) <==> Deleting(kube) || deleted)
  }

  /** The handlers will not queue the key: the skip flag is down, or they have nothing to see. */
  ghost predicate NoWakeup(s: State, id: nat)
    requires id < |s.local.records|
  {
    !s.local.records[id].skipped || (s.view.watch == [] && s.view.notes == [])
  }

  /** Where the pass is. */
  ghost predicate Passing(s: State, id: nat, kube: Pod, p: Pod)
    requires id < |s.local.records|
  {
    && s.local.records[id].fromProvider == Some(p) && !AnyStored(s.local.notifiers)
    && match s.local.worker
       case Idle =>
         if s.local.queued then PassDue(s, id, kube, p)
         else NoWakeup(s, id) && Marked(s.view, kube, Deletes(kube, p)) &&
              (Deleting(p) && !IsTerminal(kube.status) ==> !s.local.records[id].skipped)
       case Picked => !s.local.queued && Untouched(s.view, kube)
       case Listed(k) => !s.local.queued && k == kube && !IsTerminal(kube.status) && Untouched(s.view, kube)
       case Holding(k, _) => !s.local.queued && k == kube && !IsTerminal(kube.status) && Untouched(s.view, kube)
       case Decided(k, out, deleted) =>
         && !s.local.queued && k == kube && !IsTerminal(kube.status) && !s.local.records[id].skipped
         && out == p.(uid := kube.uid)
         && (deleted ==> Deletes(kube, p)) && Marked(s.view, kube, deleted)
  }

  ghost predicate Untouched(v: View, kube: Pod) {
    v.api == Some(kube) && v.cache == Some(kube) && v.watch == [] && v.notes == []
  }

  lemma PassingWork(s: State, e: WorkEvent, id: nat, uid: string, kube: Pod, p: Pod)
    requires InLifetime(s, id, uid) && Enabled(s, Work(e)) && Closing(Work(e)) && InLifetime(ApplyWork(s, e), id, uid)
    requires Passing(s, id, kube, p)
    ensures Passing(ApplyWork(s, e), id, kube, p)
  {
  }

  lemma PassingStep(s: State, e: Event, id: nat, uid: string, kube: Pod, p: Pod)
    requires InLifetime(s, id, uid) && Enabled(s, e) && Closing(e) && Passing(s, id, kube, p)
    ensures InLifetime(Apply(s, e), id, uid) && Passing(Apply(s, e), id, kube, p)
  {
    ClosingStepDescends(s, e, id, uid);
    if e.Work? {
      PassingWork(s, e.work, id, uid, kube, p);
    }
  }

  lemma {:induction false} PassingRun(s: State, events: seq<Event>, id: nat, uid: string, kube: Pod, p: Pod)
    requires InLifetime(s, id, uid) && ValidRun(s, events) && AllClosing(events) && Passing(s, id, kube, p)
    ensures InLifetime(Exec(s, events), id, uid) && Passing(Exec(s, events), id, kube, p)
    decreases |events|
  {
    if events != [] {
      assert Closing(events[0]);
      PassingStep(s, events[0], id, uid, kube, p);
      PassingRun(Apply(s, events[0]), events[1..], id, uid, kube, p);
    }
  }

  /** For every schedule that runs until it stops: the API pod ends up being deleted if and only if it was already, or
      the provider's pod is being deleted and its status had already arrived. If the status came with the deletion
      mark, the mark is lost: the skip flag is down, so that no redelivery brings the key back. */
  lemma DeletionArrivesIff(s: State, events: seq<Event>, id: nat, uid: string, kube: Pod, p: Pod)
    requires InLifetime(s, id, uid) && PassDue(s, id, kube, p)
    requires ValidRun(s, events) && AllClosing(events) && Stuck(Exec(s, events))
    ensures var t := Exec(s, events);
            && t.view.api.Some?
            && (Deleting(t.view.api.value) <==>
                  Deleting(kube) || (!IsTerminal(kube.status) && Deleting(p) && p.status == kube.status))
            && id < |t.local.records|
            && (!IsTerminal(kube.status) && Deleting(p) ==> !t.local.records[id].skipped)
  {
    PassingRun(s, events, id, uid, kube, p);
    StuckIffAtRest(Exec(s, events), id, uid);
  }

  /** A redelivery at rest with the flag down changes nothing. */
  lemma RedeliveryIsIdle(s: State, id: nat, uid: string)
    requires InLifetime(s, id, uid) && AtRest(s) && !s.local.records[id].skipped
    ensures ValidRun(s, REDELIVERY) && Exec(s, REDELIVERY) == s
  {
    var s1 := Apply(s, Informer(Resync));
    StepKeeps(s, Informer(Resync), id, uid);
    assert s1.view.notes[1..] == [];
    var r := s.local.records[id];
    assert Observe(r, s.view.cache.value.status) == (r, false);
    assert s.local.records[id := r] == s.local.records;
    assert Apply(s1, Informer(Handle)) == s;
    FollowTrace([s, s1, s], REDELIVERY);
  }
}
