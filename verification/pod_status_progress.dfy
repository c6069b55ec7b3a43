/** Progress of status reconciliation: when the outside world falls silent, every schedule comes to rest, and after one
    redelivery every schedule ends in agreement. */
module PodStatusProgress {
  import opened Pods
  import opened PodStatusProtocol
  import opened PodStatusConvergence

  /** What is left to do when no status, no other client, no redelivery and no failed call interferes any more. */
  predicate Closing(e: Event) {
    match e
    case Informer(i) => i.WatchDeliver? || i.Handle?
    case Notify(n) => n.Enqueue?
    case Work(CallDelete(o, r)) => o.Ok? && r.MarksDeleting?
    case Work(CallUpdate(o)) => o.Ok?
    case Work(_) => true
    case _ => false
  }

  predicate AllClosing(events: seq<Event>) {
    forall i | 0 <= i < |events| :: Closing(events[i])
  }

  // ----- Every schedule comes to rest -----

  function StoredCount(ns: seq<Notifier>): nat {
    if ns == [] then 0 else (if ns[0].Stored? then 1 else 0) + StoredCount(ns[1..])
  }

  lemma {:induction false} StoredCountWithout(ns: seq<Notifier>, i: nat)
    requires i < |ns| && ns[i].Stored?
    ensures StoredCount(ns) == StoredCount(Without(ns, i)) + 1
    decreases |ns|
  {
    if i == 0 {
      assert Without(ns, 0) == ns[1..];
    } else {
      StoredCountWithout(ns[1..], i - 1);
      assert Without(ns, i)[0] == ns[0] && Without(ns, i)[1..] == Without(ns[1..], i - 1);
    }
  }

  function One(b: bool): nat {
    if b then 1 else 0
  }

  /** The passes of the worker that are still to come: a skip turns its pass into the flag, the handler turns the flag
      into another pass, and an overwrite uses its pass up. */
  function Passes(c: Local, id: nat): nat
    requires id < |c.records|
  {
    StoredCount(c.notifiers) + One(c.queued) + One(Reading(c.worker)) + One(c.records[id].skipped)
  }

  function PendingCalls(w: Worker): nat {
    if !w.Decided? then 0 else if MustDelete(w) then 2 else 1
  }

  function WorkerRank(w: Worker): nat {
    match w
    case Picked => 4
    case Listed(_) => 3
    case Holding(_, _) => 2
    case _ => 0
  }

  function LocalMeasure(c: Local, id: nat): nat
    requires id < |c.records|
  {
    16 * (4 * Passes(c, id) + PendingCalls(c.worker))
    + 6 * StoredCount(c.notifiers) + 5 * One(c.queued) + WorkerRank(c.worker)
  }

  function Measure(s: State, id: nat): nat
    requires id < |s.local.records|
  {
    LocalMeasure(s.local, id) + 12 * |s.view.watch| + 6 * |s.view.notes|
  }

  lemma CallDescends(s: State, e: WorkEvent, id: nat, uid: string)
    requires InLifetime(s, id, uid) && Enabled(s, Work(e)) && Closing(Work(e)) && (e.CallDelete? || e.CallUpdate?)
    requires InLifetime(ApplyWork(s, e), id, uid)
    ensures Measure(ApplyWork(s, e), id) < Measure(s, id)
  {
    assert |ApplyWork(s, e).view.watch| <= |s.view.watch| + 1;
  }

  lemma WorkDescends(s: State, e: WorkEvent, id: nat, uid: string)
    requires InLifetime(s, id, uid) && Enabled(s, Work(e)) && Closing(Work(e)) && InLifetime(ApplyWork(s, e), id, uid)
    ensures Measure(ApplyWork(s, e), id) < Measure(s, id)
  {
    if e.CallDelete? || e.CallUpdate? {
      CallDescends(s, e, id, uid);
    } else {
      assert ApplyWork(s, e).view == s.view;
    }
  }

  lemma HandleDescends(s: State, id: nat, uid: string)
    requires InLifetime(s, id, uid) && s.view.notes != [] && InLifetime(HandleNote(s), id, uid)
    ensures Measure(HandleNote(s), id) < Measure(s, id)
  {
  }

  /** Every closing step, whichever is taken, brings rest nearer. */
  lemma ClosingStepDescends(s: State, e: Event, id: nat, uid: string)
    requires InLifetime(s, id, uid) && Enabled(s, e) && Closing(e)
    ensures Orderly(s, e) && InLifetime(Apply(s, e), id, uid)
    ensures Last(Apply(s, e).local, id) == Last(s.local, id)
    ensures Measure(Apply(s, e), id) < Measure(s, id)
  {
    StepKeeps(s, e, id, uid);
    StepRecord(s, e, id, uid);
    match e
    case Informer(i) =>
      if i.Handle? {
        HandleDescends(s, id, uid);
      }
    case Notify(n) => StoredCountWithout(s.local.notifiers, n.i);
    case Work(w) => WorkDescends(s, w, id, uid);
  }

  /** No schedule goes on for longer than the measure. */
  lemma {:induction false} ClosingRunsAreBounded(s: State, events: seq<Event>, id: nat, uid: string)
    requires InLifetime(s, id, uid) && ValidRun(s, events) && AllClosing(events)
    ensures OrderlyRun(s, events) && InLifetime(Exec(s, events), id, uid)
    ensures Last(Exec(s, events).local, id) == Last(s.local, id)
    ensures |events| + Measure(Exec(s, events), id) <= Measure(s, id)
    decreases |events|
  {
    if events != [] {
      assert Closing(events[0]);
      ClosingStepDescends(s, events[0], id, uid);
      ClosingRunsAreBounded(Apply(s, events[0]), events[1..], id, uid);
    }
  }

  /** Nothing is under way but callbacks that have not stored their status. */
  ghost predicate AtRest(s: State) {
    !s.local.queued && s.local.worker.Idle? && !AnyStored(s.local.notifiers) && s.view.watch == [] && s.view.notes == []
  }

  ghost predicate Stuck(s: State) {
    forall e :: Enabled(s, e) ==> !Closing(e)
  }

  function NextWork(w: Worker): WorkEvent
    requires !w.Idle?
  {
    match w
    case Picked => List
    case Listed(_) => Acquire
    case Holding(_, _) => Lock
    case Decided(_, _, _) => if MustDelete(w) then CallDelete(Ok, MarksDeleting(0)) else CallUpdate(Ok)
  }

  /** A schedule can only stop at rest: until then some closing step is enabled. */
  lemma StuckIffAtRest(s: State, id: nat, uid: string)
    requires InLifetime(s, id, uid)
    ensures Stuck(s) <==> AtRest(s)
  {
    if !AtRest(s) {
      var e: Event;
      if s.view.notes != [] {
        e := Informer(Handle);
      } else if s.view.watch != [] {
        e := Informer(WatchDeliver);
      } else if !s.local.worker.Idle? {
        e := Work(NextWork(s.local.worker));
      } else if s.local.queued {
        e := Work(Pick);
      } else {
        var i :| 0 <= i < |s.local.notifiers| && s.local.notifiers[i].Stored?;
        e := Notify(Enqueue(i));
      }
      assert Enabled(s, e) && Closing(e);
    }
  }

  // ----- After one redelivery every schedule ends in agreement -----

  /** The informer holds nothing back, and its handlers will only see the current status. */
  ghost predicate Current(v: View) {
    && v.watch == [] && v.api.Some? && v.cache.Some? && v.cache.value.status == v.api.value.status
    && forall i | 0 <= i < |v.notes| :: v.notes[i].Updated? && v.notes[i].after.status == v.api.value.status
  }

  /** The last status is on its way to the API server: somebody will look at it, with current eyes. */
  ghost predicate Approaching(s: State, id: nat)
    requires id < |s.local.records|
  {
    match s.local.worker
    case Idle => Current(s.view) && (s.local.queued || AnyStored(s.local.notifiers) || s.view.notes != [])
    case Picked => Current(s.view)
    case Listed(k) => Current(s.view) && k.status == s.view.api.value.status
    case Holding(k, _) => Current(s.view) && k.status == s.view.api.value.status
    case Decided(_, out, _) => Last(s.local, id) == Some(out.status)
  }

  lemma ApproachWork(s: State, e: WorkEvent, id: nat, uid: string)
    requires InLifetime(s, id, uid) && Enabled(s, Work(e)) && Closing(Work(e)) && InLifetime(ApplyWork(s, e), id, uid)
    requires Approaching(s, id) && Last(s.local, id).Some?
    ensures Settled(ApplyWork(s, e), id) || Approaching(ApplyWork(s, e), id)
  {
  }

  lemma ApproachHandle(s: State, id: nat, uid: string)
    requires InLifetime(s, id, uid) && s.view.notes != [] && InLifetime(HandleNote(s), id, uid)
    requires Approaching(s, id) && !Settled(s, id) && Last(s.local, id).Some?
    ensures Approaching(HandleNote(s), id)
  {
  }

  lemma ApproachStep(s: State, e: Event, id: nat, uid: string)
    requires InLifetime(s, id, uid) && Enabled(s, e) && Closing(e) && Last(s.local, id).Some?
    requires Settled(s, id) || Approaching(s, id)
    ensures InLifetime(Apply(s, e), id, uid) && Last(Apply(s, e).local, id) == Last(s.local, id)
    ensures Settled(Apply(s, e), id) || Approaching(Apply(s, e), id)
  {
    ClosingStepDescends(s, e, id, uid);
    if Settled(s, id) {
      SettledStep(s, e, id, uid);
    } else {
      match e
      case Informer(i) =>
        if i.Handle? {
          ApproachHandle(s, id, uid);
        }
      case Notify(_) =>
      case Work(w) => ApproachWork(s, w, id, uid);
    }
  }

  lemma {:induction false} ApproachRun(s: State, events: seq<Event>, id: nat, uid: string)
    requires InLifetime(s, id, uid) && ValidRun(s, events) && AllClosing(events) && Last(s.local, id).Some?
    requires Settled(s, id) || Approaching(s, id)
    ensures InLifetime(Exec(s, events), id, uid) && Last(Exec(s, events).local, id) == Last(s.local, id)
    ensures Settled(Exec(s, events), id) || Approaching(Exec(s, events), id)
    decreases |events|
  {
    if events != [] {
      assert Closing(events[0]);
      ApproachStep(s, events[0], id, uid);
      ApproachRun(Apply(s, events[0]), events[1..], id, uid);
    }
  }

  lemma {:induction false} NoneStored(ns: seq<Notifier>)
    requires !AnyStored(ns)
    ensures StoredCount(ns) == 0
    decreases |ns|
  {
    if ns != [] {
      assert !ns[0].Stored?;
      assert forall i | 0 <= i < |ns[1..]| :: ns[1..][i] == ns[i + 1];
      NoneStored(ns[1..]);
    }
  }

  /** All that a redelivery at rest sets in motion. */
  lemma RedeliveryApproaches(s: State, id: nat, uid: string)
    requires InLifetime(s, id, uid) && AtRest(s)
    ensures Enabled(s, Informer(Resync)) && Orderly(s, Informer(Resync))
    ensures var r := Apply(s, Informer(Resync));
            && InLifetime(r, id, uid) && Last(r.local, id) == Last(s.local, id)
            && Approaching(r, id) && Measure(r, id) <= 70
  {
    StepKeeps(s, Informer(Resync), id, uid);
    NoneStored(s.local.notifiers);
  }

  /** From every state at rest: after a redelivery of the cached object, whatever order the steps are taken in, they
      stop within 70, and when they stop the API server holds the last status. */
  lemma RedeliveryThenAnySchedule(s: State, events: seq<Event>, id: nat, uid: string)
    requires InLifetime(s, id, uid) && AtRest(s) && Last(s.local, id).Some?
    requires ValidRun(s, [Informer(Resync)] + events) && AllClosing(events)
    requires Stuck(Exec(s, [Informer(Resync)] + events))
    ensures OrderlyRun(s, [Informer(Resync)] + events) && |events| <= 70
    ensures var t := Exec(s, [Informer(Resync)] + events);
            && InLifetime(t, id, uid) && AtRest(t) && Settled(t, id) && Last(t.local, id) == Last(s.local, id)
  {
    var all := [Informer(Resync)] + events;
    assert all[1..] == events;
    var r := Apply(s, Informer(Resync));
    RedeliveryApproaches(s, id, uid);
    ClosingRunsAreBounded(r, events, id, uid);
    ApproachRun(r, events, id, uid);
    StuckIffAtRest(Exec(r, events), id, uid);
  }

  /** For every state of the lifetime, callbacks in flight included, and for all schedules: once the outside world is
      silent the steps stop within the measure; after one redelivery they stop within 70, and then the API server holds
      the last status; by `SettledForever` it stays there. */
  lemma EveryScheduleAgrees(s: State, a: seq<Event>, b: seq<Event>, id: nat, uid: string)
    requires InLifetime(s, id, uid) && Last(s.local, id).Some?
    requires ValidRun(s, a) && AllClosing(a) && Stuck(Exec(s, a))
    requires ValidRun(Exec(s, a), [Informer(Resync)] + b) && AllClosing(b)
    requires Stuck(Exec(Exec(s, a), [Informer(Resync)] + b))
    ensures |a| <= Measure(s, id) && |b| <= 70
    ensures var t := Exec(Exec(s, a), [Informer(Resync)] + b);
            && InLifetime(t, id, uid) && AtRest(t) && Settled(t, id) && Last(t.local, id) == Last(s.local, id)
  {
    ClosingRunsAreBounded(s, a, id, uid);
    StuckIffAtRest(Exec(s, a), id, uid);
    RedeliveryThenAnySchedule(Exec(s, a), b, id, uid);
  }

  // ----- Such schedules exist -----

  lemma {:induction false} RunToRest(s: State, id: nat, uid: string) returns (events: seq<Event>)
    requires InLifetime(s, id, uid)
    ensures ValidRun(s, events) && AllClosing(events) && Stuck(Exec(s, events))
    decreases Measure(s, id)
  {
    if Stuck(s) {
      events := [];
    } else {
      var e :| Enabled(s, e) && Closing(e);
      ClosingStepDescends(s, e, id, uid);
      var rest := RunToRest(Apply(s, e), id, uid);
      events := [e] + rest;
      assert events[1..] == rest;
    }
  }

  /** No callback is still about to store its status. */
  predicate AllStored(ns: seq<Notifier>) {
    forall i | 0 <= i < |ns| :: ns[i].Stored?
  }

  lemma {:induction false} NoCallbackAppears(s: State, events: seq<Event>)
    requires WellFormed(s.local) && ValidRun(s, events) && AllClosing(events) && AllStored(s.local.notifiers)
    ensures AllStored(Exec(s, events).local.notifiers)
    decreases |events|
  {
    if events != [] {
      StoredStep(s, events[0]);
      NoCallbackAppears(Apply(s, events[0]), events[1..]);
    }
  }

  lemma StoredStep(s: State, e: Event)
    requires Enabled(s, e) && Closing(e) && AllStored(s.local.notifiers)
    ensures AllStored(Apply(s, e).local.notifiers)
  {
    match e
    case Informer(_) =>
    case Notify(_) =>
    case Work(_) => assert Apply(s, e).local.notifiers == s.local.notifiers;
  }

  lemma NothingLeft(ns: seq<Notifier>)
    requires AllStored(ns)
    ensures AnyStored(ns) <==> ns != []
  {
    if ns != [] {
      assert ns[0].Stored?;
    }
  }

  /** From every state of the lifetime an orderly schedule without new statuses leads to agreement. */
  lemma AgreementIsReachable(s: State, id: nat, uid: string) returns (events: seq<Event>)
    requires InLifetime(s, id, uid) && Last(s.local, id).Some?
    ensures ValidRun(s, events) && OrderlyRun(s, events)
    ensures var t := Exec(s, events);
            && InLifetime(t, id, uid) && AtRest(t) && Settled(t, id) && Last(t.local, id) == Last(s.local, id)
            && (AllStored(s.local.notifiers) ==> Quiet(t.local))
  {
    var a := RunToRest(s, id, uid);
    ClosingRunsAreBounded(s, a, id, uid);
    var m := Exec(s, a);
    StuckIffAtRest(m, id, uid);
    StepKeeps(m, Informer(Resync), id, uid);
    var r := Apply(m, Informer(Resync));
    var b := RunToRest(r, id, uid);
    var all := [Informer(Resync)] + b;
    assert all[1..] == b;
    RedeliveryThenAnySchedule(m, b, id, uid);
    Concat(s, a, all);
    events := a + all;
    if AllStored(s.local.notifiers) {
      NoCallbackAppears(s, a);
      NoCallbackAppears(r, b);
      NothingLeft(Exec(r, b).local.notifiers);
    }
  }
}
