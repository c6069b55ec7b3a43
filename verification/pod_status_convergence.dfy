/** No status reported by the provider is lost within one pod lifetime, although the worker compares it with
    a cache that may be stale. */
module PodStatusConvergence {
  import opened Pods
  import opened KnownPods
  import opened PodStatusProtocol

  /** What one pod lifetime allows: the API pod is neither removed nor recreated, only the worker writes its
      status, failed calls are retried, the record is not replaced, and a terminal provider status is the
      last status. */
  predicate Orderly(s: State, e: Event)
    requires Enabled(s, e)
  {
    match e
    case Api(a) => a.Modify?
    case Informer(_) => true
    case Notify(n) => n.Store? ==> TerminalStays(s.local.records[s.local.notifiers[n.i].record], n.pod)
    case Work(CallDelete(o, r)) => r.MarksDeleting? && (o.Error? ==> o.requeue)
    case Work(CallUpdate(o)) => o.Error? ==> o.requeue
    case Work(_) => true
    case ReplaceRecord => false
  }

  predicate TerminalStays(r: Record, pod: Pod) {
    r.fromProvider.Some? && IsTerminal(r.fromProvider.value.status) ==> pod.status == r.fromProvider.value.status
  }

  predicate OrderlyRun(s: State, events: seq<Event>)
    requires WellFormed(s.local) && ValidRun(s, events)
    decreases |events|
  {
    events == [] || (Orderly(s, events[0]) && OrderlyRun(Apply(s, events[0]), events[1..]))
  }

  lemma {:induction false} OrderlyAppend(s: State, a: seq<Event>, b: seq<Event>)
    requires WellFormed(s.local) && ValidRun(s, a + b)
    ensures ValidRun(s, a) && ValidRun(Exec(s, a), b)
    ensures OrderlyRun(s, a + b) <==> OrderlyRun(s, a) && OrderlyRun(Exec(s, a), b)
    decreases |a|
  {
    RunAppend(s, a, b);
    if a == [] {
      assert a + b == b;
    } else {
      assert (a + b)[0] == a[0] && (a + b)[1..] == a[1..] + b;
      OrderlyAppend(Apply(s, a[0]), a[1..], b);
    }
  }

  lemma Concat(s: State, a: seq<Event>, b: seq<Event>)
    requires WellFormed(s.local)
    requires ValidRun(s, a) && OrderlyRun(s, a) && ValidRun(Exec(s, a), b) && OrderlyRun(Exec(s, a), b)
    ensures ValidRun(s, a + b) && OrderlyRun(s, a + b) && Exec(s, a + b) == Exec(Exec(s, a), b)
  {
    RunAppend(s, a, b);
    OrderlyAppend(s, a, b);
  }

  /** The status last received from the provider, as the record holds it. */
  function Last(c: Local, id: nat): Option<PodStatus>
    requires id < |c.records|
  {
    match c.records[id].fromProvider
    case None => None
    case Some(p) => Some(p.status)
  }

  /** A copy of the pod that the informer holds: if it is terminal, then its status is final everywhere. */
  predicate Credible(p: Option<Pod>, uid: string, api: PodStatus, last: Option<PodStatus>) {
    && p.Some? && p.value.uid == uid
    && (IsTerminal(p.value.status) ==> last == Some(p.value.status) && api == p.value.status)
  }

  ghost predicate ViewOk(v: View, uid: string, last: Option<PodStatus>) {
    && v.api.Some?
    && var api := v.api.value.status;
    && Credible(v.api, uid, api, last)
    && Credible(v.cache, uid, api, last)
    && (forall i | 0 <= i < |v.watch| :: Credible(v.watch[i], uid, api, last))
    && (forall i | 0 <= i < |v.notes| :: v.notes[i].Updated?)
    && v.api == (if v.watch == [] then v.cache else v.watch[|v.watch| - 1])
  }

  predicate Reading(w: Worker) {
    w.Picked? || w.Listed? || w.Holding?
  }

  ghost predicate AnyStored(ns: seq<Notifier>) {
    exists i | 0 <= i < |ns| :: ns[i].Stored?
  }

  ghost predicate LocalOk(c: Local, id: nat, uid: string, api: PodStatus) {
    && WellFormed(c)
    && c.known == Some(id)
    && (forall i | 0 <= i < |c.notifiers| && c.notifiers[i].Loaded? :: c.notifiers[i].record == id)
    && (c.queued || !c.worker.Idle? || AnyStored(c.notifiers) || c.records[id].skipped ==> Last(c, id).Some?)
    && (c.worker.Listed? || c.worker.Holding? || c.worker.Decided? ==> c.worker.kube.uid == uid)
    && (c.worker.Holding? ==> c.worker.record == id)
    && (c.worker.Decided? ==>
          && c.worker.out.uid == uid
          && (IsTerminal(c.worker.out.status) ==> Last(c, id) == Some(c.worker.out.status))
          && (IsTerminal(api) ==> c.worker.out.status == api))
  }

  /** Somebody will still look at the last status, or it has arrived, or the skip flag is up. */
  ghost predicate NotForgotten(c: Local, id: nat, api: PodStatus)
    requires id < |c.records|
  {
    Last(c, id).Some? ==>
      || c.queued || AnyStored(c.notifiers) || Reading(c.worker)
      || (c.worker.Decided? && Last(c, id) == Some(c.worker.out.status))
      || (c.worker.Idle? && (Last(c, id) == Some(api) || c.records[id].skipped))
  }

  ghost predicate InLifetime(s: State, id: nat, uid: string) {
    && s.failure.None?
    && s.view.api.Some?
    && LocalOk(s.local, id, uid, s.view.api.value.status)
    && ViewOk(s.view, uid, Last(s.local, id))
    && NotForgotten(s.local, id, s.view.api.value.status)
  }

  // ----- Every orderly step keeps the invariant -----

  lemma InformKeeps(v: View, e: InformerEvent, uid: string, last: Option<PodStatus>)
    requires ViewOk(v, uid, last) && InformerEnabled(v, e) && !e.Handle?
    ensures ViewOk(Inform(v, e), uid, last) && Inform(v, e).api == v.api
  {
  }

  lemma NotifyKeeps(c: Local, e: NotifyEvent, id: nat, uid: string, v: View)
    requires v.api.Some? && LocalOk(c, id, uid, v.api.value.status) && NotForgotten(c, id, v.api.value.status)
    requires ViewOk(v, uid, Last(c, id))
    requires NotifyEnabled(c, e) && (e.Store? ==> TerminalStays(c.records[id], e.pod))
    ensures var d := ApplyNotify(c, e);
            && LocalOk(d, id, uid, v.api.value.status) && NotForgotten(d, id, v.api.value.status)
            && ViewOk(v, uid, Last(d, id))
  {
    var d := ApplyNotify(c, e);
    match e
    case Load(_) => StoredSurvives(c.notifiers, d.notifiers);
    case Store(i, p) =>
      if c.records[id].fromProvider == Some(p) {
        StoredWithout(c.notifiers, i);
      } else {
        assert d.notifiers[i].Stored?;
      }
    case Enqueue(i) =>
      assert c.notifiers[i].Stored?;
  }

  lemma StoredSurvives(a: seq<Notifier>, b: seq<Notifier>)
    requires |b| == |a| + 1 && a == b[..|a|] && b[|a|].Loaded?
    ensures AnyStored(a) <==> AnyStored(b)
  {
    if AnyStored(a) {
      var i :| 0 <= i < |a| && a[i].Stored?;
      assert b[i].Stored?;
    }
    if AnyStored(b) {
      var i :| 0 <= i < |b| && b[i].Stored?;
      assert a[i].Stored?;
    }
  }

  lemma StoredWithout(a: seq<Notifier>, i: nat)
    requires i < |a| && a[i].Loaded?
    ensures AnyStored(a) <==> AnyStored(Without(a, i))
  {
    var b := Without(a, i);
    if AnyStored(a) {
      var j :| 0 <= j < |a| && a[j].Stored?;
      assert b[if j < i then j else j - 1].Stored?;
    }
    if AnyStored(b) {
      var j :| 0 <= j < |b| && b[j].Stored?;
      assert a[if j < i then j else j + 1].Stored?;
    }
  }

  lemma HandleKeeps(s: State, id: nat, uid: string)
    requires InLifetime(s, id, uid) && s.view.notes != []
    ensures InLifetime(HandleNote(s), id, uid)
    ensures Last(HandleNote(s).local, id) == Last(s.local, id)
  {
  }

  lemma ReadKeeps(s: State, e: WorkEvent, id: nat, uid: string)
    requires InLifetime(s, id, uid) && Enabled(s, Work(e)) && !e.CallDelete? && !e.CallUpdate?
    ensures InLifetime(ApplyWork(s, e), id, uid)
    ensures Last(ApplyWork(s, e).local, id) == Last(s.local, id)
  {
  }

  lemma CallKeeps(s: State, e: WorkEvent, id: nat, uid: string)
    requires InLifetime(s, id, uid) && Enabled(s, Work(e)) && Orderly(s, Work(e)) && (e.CallDelete? || e.CallUpdate?)
    ensures InLifetime(ApplyWork(s, e), id, uid)
    ensures Last(ApplyWork(s, e).local, id) == Last(s.local, id)
  {
  }

  lemma WorkKeeps(s: State, e: WorkEvent, id: nat, uid: string)
    requires InLifetime(s, id, uid) && Enabled(s, Work(e)) && Orderly(s, Work(e))
    ensures InLifetime(ApplyWork(s, e), id, uid)
    ensures Last(ApplyWork(s, e).local, id) == Last(s.local, id)
  {
    if e.CallDelete? || e.CallUpdate? {
      CallKeeps(s, e, id, uid);
    } else {
      ReadKeeps(s, e, id, uid);
    }
  }

  lemma StepKeeps(s: State, e: Event, id: nat, uid: string)
    requires InLifetime(s, id, uid) && Enabled(s, e) && Orderly(s, e)
    ensures InLifetime(Apply(s, e), id, uid)
  {
    match e
    case Api(_) =>
    case Informer(i) =>
      if i.Handle? {
        HandleKeeps(s, id, uid);
      } else {
        InformKeeps(s.view, i, uid, Last(s.local, id));
      }
    case Notify(n) => NotifyKeeps(s.local, n, id, uid, s.view);
    case Work(w) => WorkKeeps(s, w, id, uid);
    case ReplaceRecord =>
  }

  lemma {:induction false} RunKeeps(s: State, events: seq<Event>, id: nat, uid: string)
    requires InLifetime(s, id, uid) && ValidRun(s, events) && OrderlyRun(s, events)
    ensures InLifetime(Exec(s, events), id, uid)
    decreases |events|
  {
    if events != [] {
      StepKeeps(s, events[0], id, uid);
      RunKeeps(Apply(s, events[0]), events[1..], id, uid);
    }
  }

  // ----- The record holds what the provider sent last -----

  /** The pod of the last callback that took the record's lock. */
  function LastSent(events: seq<Event>): Option<Pod> {
    if events == [] then None
    else if LastSent(events[1..]).Some? then LastSent(events[1..])
    else match events[0]
         case Notify(Store(_, p)) => Some(p)
         case _ => None
  }

  lemma StepRecord(s: State, e: Event, id: nat, uid: string)
    requires InLifetime(s, id, uid) && Enabled(s, e) && Orderly(s, e) && id < |Apply(s, e).local.records|
    ensures Apply(s, e).local.records[id].fromProvider ==
            match e
            case Notify(Store(_, p)) => Some(p)
            case _ => s.local.records[id].fromProvider
  {
  }

  lemma {:induction false} RecordHoldsLastSent(s: State, events: seq<Event>, id: nat, uid: string)
    requires InLifetime(s, id, uid) && ValidRun(s, events) && OrderlyRun(s, events)
    ensures InLifetime(Exec(s, events), id, uid)
    ensures Exec(s, events).local.records[id].fromProvider ==
            if LastSent(events).Some? then LastSent(events) else s.local.records[id].fromProvider
    decreases |events|
  {
    if events != [] {
      StepKeeps(s, events[0], id, uid);
      StepRecord(s, events[0], id, uid);
      RecordHoldsLastSent(Apply(s, events[0]), events[1..], id, uid);
    }
  }

  // ----- Safety: nothing is lost -----

  /** A run of the informer and of other API clients only. */
  predicate Passive(events: seq<Event>) {
    forall i | 0 <= i < |events| :: events[i].Api? || events[i].Informer?
  }

  /** The skip flag is up only if the skip was right. */
  ghost predicate SkipJustified(s: State, id: nat)
    requires id < |s.local.records| && s.view.api.Some?
  {
    s.local.records[id].skipped ==> Last(s.local, id) == Some(s.view.api.value.status)
  }

  lemma {:induction false} PassiveKeepsJustification(s: State, events: seq<Event>, id: nat, uid: string)
    requires InLifetime(s, id, uid) && ValidRun(s, events) && OrderlyRun(s, events) && Passive(events)
    requires SkipJustified(s, id)
    ensures InLifetime(Exec(s, events), id, uid) && SkipJustified(Exec(s, events), id)
    decreases |events|
  {
    if events != [] {
      assert events[0].Api? || events[0].Informer?;
      StepKeeps(s, events[0], id, uid);
      PassiveKeepsJustification(Apply(s, events[0]), events[1..], id, uid);
    }
  }

  /** Once the update handler has been shown the current object and the key has come to rest, the API server
      holds the status that the provider sent last. */
  lemma NoStatusLost(s: State, before: seq<Event>, after: seq<Event>, id: nat, uid: string)
    requires InLifetime(s, id, uid)
    requires ValidRun(s, before + ([Informer(Handle)] + after)) && OrderlyRun(s, before + ([Informer(Handle)] + after))
    requires LastSent(before).Some? && Passive(after)
    requires ValidRun(s, before) && ShownCurrentObject(Exec(s, before))
    requires Quiet(Exec(s, before + ([Informer(Handle)] + after)).local)
    ensures var api := Exec(s, before + ([Informer(Handle)] + after)).view.api;
            api.Some? && api.value.status == LastSent(before).value.status
  {
    var tail := [Informer(Handle)] + after;
    assert tail[1..] == after;
    RunAppend(s, before, tail);
    OrderlyAppend(s, before, tail);
    var m := Exec(s, before);
    RecordHoldsLastSent(s, before, id, uid);
    var h := HandleNote(m);
    HandleKeeps(m, id, uid);
    assert SkipJustified(h, id);
    PassiveKeepsJustification(h, after, id, uid);
    PassiveRecord(h, after, id, uid);
  }

  /** The notification at the head of the queue carries the status that the API server holds now. */
  predicate ShownCurrentObject(s: State) {
    && s.view.notes != [] && s.view.notes[0].Updated?
    && s.view.api.Some? && s.view.notes[0].after.status == s.view.api.value.status
  }

  lemma {:induction false} PassiveRecord(s: State, events: seq<Event>, id: nat, uid: string)
    requires InLifetime(s, id, uid) && ValidRun(s, events) && OrderlyRun(s, events) && Passive(events)
    ensures InLifetime(Exec(s, events), id, uid)
    ensures Last(Exec(s, events).local, id) == Last(s.local, id)
    decreases |events|
  {
    if events != [] {
      assert events[0].Api? || events[0].Informer?;
      StepKeeps(s, events[0], id, uid);
      StepRecord(s, events[0], id, uid);
      PassiveRecord(Apply(s, events[0]), events[1..], id, uid);
    }
  }

  // ----- Stability: once it has arrived, only a newer status displaces it -----

  ghost predicate Settled(s: State, id: nat)
    requires id < |s.local.records| && s.view.api.Some?
  {
    && Last(s.local, id) == Some(s.view.api.value.status)
    && (s.local.worker.Decided? ==> s.local.worker.out.status == s.view.api.value.status)
  }

  predicate NoNewStatus(events: seq<Event>) {
    forall i | 0 <= i < |events| :: !(events[i].Notify? && events[i].notify.Store?)
  }

  lemma SettledStep(s: State, e: Event, id: nat, uid: string)
    requires InLifetime(s, id, uid) && Enabled(s, e) && Orderly(s, e)
    requires Settled(s, id) && !(e.Notify? && e.notify.Store?)
    ensures InLifetime(Apply(s, e), id, uid) && Settled(Apply(s, e), id)
    ensures Apply(s, e).view.api.value.status == s.view.api.value.status
  {
    StepKeeps(s, e, id, uid);
    StepRecord(s, e, id, uid);
    match e
    case Work(w) => SettledWork(s, w, id, uid);
    case _ =>
  }

  lemma SettledWork(s: State, e: WorkEvent, id: nat, uid: string)
    requires InLifetime(s, id, uid) && Enabled(s, Work(e)) && Orderly(s, Work(e)) && Settled(s, id)
    requires InLifetime(ApplyWork(s, e), id, uid)
    ensures Settled(ApplyWork(s, e), id)
    ensures ApplyWork(s, e).view.api.value.status == s.view.api.value.status
  {
  }

  /** Until the provider sends another status, no stale cache, retry or spurious wakeup changes the API
      status again. */
  lemma {:induction false} SettledForever(s: State, events: seq<Event>, id: nat, uid: string)
    requires InLifetime(s, id, uid) && ValidRun(s, events) && OrderlyRun(s, events)
    requires Settled(s, id) && NoNewStatus(events)
    ensures InLifetime(Exec(s, events), id, uid)
    ensures Exec(s, events).view.api.value.status == s.view.api.value.status
    decreases |events|
  {
    if events != [] {
      SettledStep(s, events[0], id, uid);
      assert NoNewStatus(events[1..]) by {
        forall i | 0 <= i < |events[1..]|
          ensures !(events[1..][i].Notify? && events[1..][i].notify.Store?)
        {
          assert events[1..][i] == events[i + 1];
        }
      }
      SettledForever(Apply(s, events[0]), events[1..], id, uid);
    }
  }

  // ----- Lifetimes begin, and why redelivery is needed -----

  /** A pod created with a non-terminal status starts a lifetime when the add handler has run. */
  lemma LifetimeBegins(pod: Pod)
    requires !IsTerminal(pod.status)
    ensures ValidRun(INIT, Arrival(pod)) && InLifetime(Exec(INIT, Arrival(pod)), 0, pod.uid)
  {
    PodArrives(pod);
  }

  lemma {:induction false} FollowOrderly(states: seq<State>, events: seq<Event>)
    requires |states| == |events| + 1
    requires forall i | 0 <= i < |events| ::
               && Enabled(states[i], events[i]) && Orderly(states[i], events[i])
               && Apply(states[i], events[i]) == states[i + 1]
    requires WellFormed(states[0].local)
    ensures ValidRun(states[0], events) && OrderlyRun(states[0], events)
    ensures Exec(states[0], events) == states[|events|]
    decreases |events|
  {
    if events != [] {
      assert Apply(states[0], events[0]) == states[1];
      FollowOrderly(states[1..], events[1..]);
    }
  }

  /** The controller at rest with one record. */
  function Resting(v: View, r: Record, queued: bool): State {
    State(v, Local([r], Some(0), [], queued, Idle), None)
  }

  const WRITE_PASS: seq<Event> := [Work(Pick), Work(List), Work(Acquire), Work(Lock), Work(CallUpdate(Ok))]

  lemma WritePass(v: View, kube: Pod, r: Record, p: Pod)
    requires v.cache == Some(kube) && v.api == Some(kube) && v.watch == [] && !IsTerminal(kube.status)
    requires r.fromProvider == Some(p) && p.status != kube.status
    ensures var s := Resting(v, r, true);
            var written := Some(kube.(status := p.status));
            && ValidRun(s, WRITE_PASS) && OrderlyRun(s, WRITE_PASS)
            && Exec(s, WRITE_PASS) == Resting(v.(api := written, watch := [written]), r.(skipped := false), false)
  {
    var s := Resting(v, r, true);
    var c := s.local;
    var written := Some(kube.(status := p.status));
    var s1 := s.(local := c.(queued := false, worker := Picked));
    var s2 := s.(local := c.(queued := false, worker := Listed(kube)));
    var s3 := s.(local := c.(queued := false, worker := Holding(kube, 0)));
    var s4 := s.(local := Local([r.(skipped := false)], Some(0), [], false, Decided(kube, p.(uid := kube.uid), false)));
    var s5 := Resting(v.(api := written, watch := [written]), r.(skipped := false), false);
    assert Apply(s, Work(Pick)) == s1;
    assert Apply(s1, Work(List)) == s2;
    assert Apply(s2, Work(Acquire)) == s3;
    assert Apply(s3, Work(Lock)) == s4;
    assert Apply(s4, Work(CallUpdate(Ok))) == s5;
    FollowOrderly([s, s1, s2, s3, s4, s5], WRITE_PASS);
  }

  /** The worker reads the lister, the informer catches up, and only then does the worker take the lock. */
  const GAP_READ: seq<Event> := [Work(Pick), Work(List), Informer(WatchDeliver), Informer(Handle)]

  const GAP_LOCK: seq<Event> := [Work(Acquire), Work(Lock)]

  lemma GapRead(v: View, kube: Pod, now: Pod, r: Record)
    requires v.cache == Some(kube) && v.watch == [Some(now)] && v.notes == []
    requires !IsTerminal(kube.status) && !r.skipped
    ensures var s := Resting(v, r, true);
            && ValidRun(s, GAP_READ) && OrderlyRun(s, GAP_READ)
            && Exec(s, GAP_READ) == State(v.(cache := Some(now), watch := []),
                                          Local([r], Some(0), [], false, Listed(kube)), None)
  {
    var s := Resting(v, r, true);
    var s1 := s.(local := Local([r], Some(0), [], false, Picked));
    var s2 := s.(local := Local([r], Some(0), [], false, Listed(kube)));
    var s3 := s2.(view := v.(cache := Some(now), watch := [], notes := [Updated(kube, now)]));
    var s4 := s2.(view := v.(cache := Some(now), watch := []));
    assert Apply(s, Work(Pick)) == s1;
    assert Apply(s1, Work(List)) == s2;
    assert Apply(s2, Informer(WatchDeliver)) == s3;
    assert Apply(s3, Informer(Handle)) == s4;
    FollowOrderly([s, s1, s2, s3, s4], GAP_READ);
  }

  lemma GapLock(v: View, kube: Pod, r: Record, p: Pod)
    requires r.fromProvider == Some(p) && p.status == kube.status && p.deletionTimestamp.None?
    ensures var s := State(v, Local([r], Some(0), [], false, Listed(kube)), None);
            && ValidRun(s, GAP_LOCK) && OrderlyRun(s, GAP_LOCK)
            && Exec(s, GAP_LOCK) == Resting(v, r.(skipped := true), false)
  {
    var s := State(v, Local([r], Some(0), [], false, Listed(kube)), None);
    var s1 := s.(local := Local([r], Some(0), [], false, Holding(kube, 0)));
    var s2 := Resting(v, r.(skipped := true), false);
    assert Apply(s, Work(Acquire)) == s1;
    assert Apply(s1, Work(Lock)) == s2;
    FollowOrderly([s, s1, s2], GAP_LOCK);
  }

  /** The run of the lost status: the provider reports `first`, the worker writes it, the provider goes back to
      the pod's original status, and the worker skips that report on a lister read taken just in time. */
  function GapRun(first: Pod, second: Pod): seq<Event> {
    Notification(first) + WRITE_PASS + Notification(second) + GAP_READ + GAP_LOCK
  }

  /** Without redelivery the claim is false: the key is at rest, the informer holds nothing back and its
      handlers have seen everything, yet the API server keeps a status that is not the last one. */
  lemma GapLosesStatusUntilRedelivery(pod: Pod, first: Pod, second: Pod)
    requires !IsTerminal(pod.status) && !IsTerminal(first.status) && first.status != pod.status
    requires second.status == pod.status && second.deletionTimestamp.None?
    ensures ValidRun(INIT, Arrival(pod))
    ensures var s := Exec(INIT, Arrival(pod));
            && ValidRun(s, GapRun(first, second)) && OrderlyRun(s, GapRun(first, second))
            && var t := Exec(s, GapRun(first, second));
            && Quiet(t.local) && t.view.watch == [] && t.view.notes == []
            && |t.local.records| == 1 && t.local.records[0].fromProvider == Some(second)
            && t.view.api.Some? && t.view.api.value.status != second.status
  {
    PodArrives(pod);
    var s := Exec(INIT, Arrival(pod));
    var v := s.view;
    var r1 := EMPTY_RECORD.(fromProvider := Some(first));
    var r2 := EMPTY_RECORD.(fromProvider := Some(second));
    var now := pod.(status := first.status);
    var w := v.(api := Some(now), watch := [Some(now)]);
    StatusArrivesOrderly(s, first);
    assert StatusStored(s.local, 0, first).records == [r1];
    WritePass(v, pod, r1, first);
    Concat(s, Notification(first), WRITE_PASS);
    var m := Resting(w, r1, false);
    StatusArrivesOrderly(m, second);
    assert StatusStored(m.local, 0, second).records == [r2];
    Concat(s, Notification(first) + WRITE_PASS, Notification(second));
    GapRead(w, pod, now, r2);
    Concat(s, Notification(first) + WRITE_PASS + Notification(second), GAP_READ);
    GapLock(w.(cache := Some(now), watch := []), pod, r2, second);
    Concat(s, Notification(first) + WRITE_PASS + Notification(second) + GAP_READ, GAP_LOCK);
  }

  const REDELIVERY: seq<Event> := [Informer(Resync), Informer(Handle)]

  /** Exactly which statuses the gap loses, and that redelivery finds them: at rest with nothing left to deliver,
      the API server holds another status than the last one if and only if showing the cached object to the update
      handler once more queues the key; and then the skip flag is up. */
  lemma RedeliveryFindsExactlyTheLost(s: State, id: nat, uid: string)
    requires InLifetime(s, id, uid) && Quiet(s.local) && Last(s.local, id).Some?
    requires s.view.watch == [] && s.view.notes == []
    ensures ValidRun(s, REDELIVERY) && OrderlyRun(s, REDELIVERY) && InLifetime(Exec(s, REDELIVERY), id, uid)
    ensures Exec(s, REDELIVERY).local.queued <==> Last(s.local, id) != Some(s.view.api.value.status)
    ensures Last(s.local, id) != Some(s.view.api.value.status) ==> s.local.records[id].skipped
  {
    var s1 := Apply(s, Informer(Resync));
    var s2 := Apply(s1, Informer(Handle));
    StepKeeps(s, Informer(Resync), id, uid);
    StepKeeps(s1, Informer(Handle), id, uid);
    FollowOrderly([s, s1, s2], REDELIVERY);
  }

  // ----- Why a status is lost -----

  /** The listed status on which the last decision of the run was to skip; `None` if it was to overwrite. `skip` is
      what holds before the run. */
  function LastSkip(s: State, events: seq<Event>, skip: Option<PodStatus>): Option<PodStatus>
    requires WellFormed(s.local) && ValidRun(s, events)
    decreases |events|
  {
    if events == [] then skip else LastSkip(Apply(s, events[0]), events[1..], NextSkip(s, events[0], skip))
  }

  function NextSkip(s: State, e: Event, skip: Option<PodStatus>): Option<PodStatus>
    requires Enabled(s, e)
  {
    if !e.Work? || !e.work.Lock? then skip
    else if Decide(s.local.records[s.local.worker.record], s.local.worker.kube).1.Skip?
    then Some(s.local.worker.kube.status)
    else None
  }

  /** The skip flag is up only after a skip; and while nothing is under way, the status that was skipped is the last
      one, and no call is pending that could change the API status. */
  ghost predicate SkipTraced(s: State, id: nat, skip: Option<PodStatus>)
    requires id < |s.local.records| && s.view.api.Some?
  {
    && (s.local.records[id].skipped ==> skip.Some?)
    && (skip.Some? ==>
          && !s.local.worker.Decided?
          && (IsTerminal(s.view.api.value.status) ==> skip == Some(s.view.api.value.status))
          && (s.local.queued || AnyStored(s.local.notifiers) || Reading(s.local.worker) || Last(s.local, id) == skip))
  }

  lemma SkipTracedNotify(c: Local, e: NotifyEvent, id: nat)
    requires WellFormed(c) && id < |c.records| && NotifyEnabled(c, e)
    ensures var d := ApplyNotify(c, e);
            && id < |d.records| && d.records[id].skipped == c.records[id].skipped && d.worker == c.worker
            && (c.queued || AnyStored(c.notifiers) ==> d.queued || AnyStored(d.notifiers))
            && (d.queued || AnyStored(d.notifiers) || Last(d, id) == Last(c, id))
  {
    var d := ApplyNotify(c, e);
    match e
    case Load(_) => StoredSurvives(c.notifiers, d.notifiers);
    case Store(i, p) =>
      if c.records[c.notifiers[i].record].fromProvider == Some(p) {
        StoredWithout(c.notifiers, i);
      } else {
        assert d.notifiers[i].Stored?;
      }
    case Enqueue(_) =>
  }

  lemma SkipTracedWork(s: State, e: WorkEvent, id: nat, uid: string, skip: Option<PodStatus>)
    requires InLifetime(s, id, uid) && Enabled(s, Work(e)) && Orderly(s, Work(e)) && SkipTraced(s, id, skip)
    requires InLifetime(ApplyWork(s, e), id, uid)
    ensures SkipTraced(ApplyWork(s, e), id, NextSkip(s, Work(e), skip))
  {
  }

  lemma SkipTracedStep(s: State, e: Event, id: nat, uid: string, skip: Option<PodStatus>)
    requires InLifetime(s, id, uid) && Enabled(s, e) && Orderly(s, e) && SkipTraced(s, id, skip)
    ensures InLifetime(Apply(s, e), id, uid) && SkipTraced(Apply(s, e), id, NextSkip(s, e, skip))
  {
    StepKeeps(s, e, id, uid);
    match e
    case Notify(n) => SkipTracedNotify(s.local, n, id);
    case Work(w) => SkipTracedWork(s, w, id, uid, skip);
    case _ =>
  }

  lemma {:induction false} SkipTracedRun(s: State, events: seq<Event>, id: nat, uid: string, skip: Option<PodStatus>)
    requires InLifetime(s, id, uid) && ValidRun(s, events) && OrderlyRun(s, events) && SkipTraced(s, id, skip)
    ensures InLifetime(Exec(s, events), id, uid) && SkipTraced(Exec(s, events), id, LastSkip(s, events, skip))
    decreases |events|
  {
    if events != [] {
      SkipTracedStep(s, events[0], id, uid, skip);
      SkipTracedRun(Apply(s, events[0]), events[1..], id, uid, NextSkip(s, events[0], skip));
    }
  }

  /** The cause of every loss, for every orderly run that starts with the flag down and comes to rest, whatever the
      informer still holds back: a status is lost if and only if the last decision was to skip, on a listed status
      that is not the one the API server holds. */
  lemma LostIffLastSkipWasStale(s: State, events: seq<Event>, id: nat, uid: string)
    requires InLifetime(s, id, uid) && !s.local.records[id].skipped
    requires ValidRun(s, events) && OrderlyRun(s, events) && Quiet(Exec(s, events).local)
    ensures InLifetime(Exec(s, events), id, uid)
    ensures var t, skip := Exec(s, events), LastSkip(s, events, None);
            Last(t.local, id).Some? && Last(t.local, id) != Some(t.view.api.value.status) <==>
            skip.Some? && skip != Some(t.view.api.value.status)
  {
    SkipTracedRun(s, events, id, uid, None);
  }

  lemma StatusArrivesOrderly(s: State, pod: Pod)
    requires WellFormed(s.local) && s.failure.None? && s.local.known == Some(0) && s.local.notifiers == []
    requires s.local.records[0].fromProvider != Some(pod) && TerminalStays(s.local.records[0], pod)
    ensures ValidRun(s, Notification(pod)) && OrderlyRun(s, Notification(pod))
    ensures Exec(s, Notification(pod)) == s.(local := StatusStored(s.local, 0, pod).(queued := true))
  {
    StatusArrivesLocally(s.local, 0, pod);
    var c1 := s.local.(notifiers := [Loaded(0, pod)]);
    var c2 := StatusStored(s.local, 0, pod).(notifiers := [Stored]);
    var c3 := StatusStored(s.local, 0, pod).(queued := true);
    assert Apply(s, Notify(Load(pod))) == s.(local := c1);
    assert Apply(s.(local := c1), Notify(Store(0, pod))) == s.(local := c2);
    assert Orderly(s.(local := c1), Notify(Store(0, pod)));
    FollowOrderly([s, s.(local := c1), s.(local := c2), s.(local := c3)], Notification(pod));
  }
}
