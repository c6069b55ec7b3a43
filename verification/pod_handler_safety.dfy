/** The informer's handlers never fail; the status worker can, and exactly from which states is stated here. */
module PodHandlerSafety {
  import opened Pods
  import opened KnownPods
  import opened PodStatusProtocol
  import PodStatusConvergence

  /** Replays undelivered notifications; `None` when an update or delete arrives for an absent pod. */
  function Replay(present: bool, notes: seq<Note>): Option<bool>
    decreases |notes|
  {
    if notes == [] then Some(present)
    else match notes[0]
         case Added(_) => Replay(true, notes[1..])
         case Updated(_, _) => if present then Replay(true, notes[1..]) else None
         case Deleted => if present then Replay(false, notes[1..]) else None
  }

  lemma {:induction false} ReplayAppend(present: bool, notes: seq<Note>, n: Note)
    ensures Replay(present, notes + [n]) ==
            match Replay(present, notes)
            case None => None
            case Some(b) => Replay(b, [n])
    decreases |notes|
  {
    if notes == [] {
      assert notes + [n] == [n];
    } else {
      assert (notes + [n])[0] == notes[0] && (notes + [n])[1..] == notes[1..] + [n];
      ReplayAppend(true, notes[1..], n);
      ReplayAppend(false, notes[1..], n);
    }
  }

  predicate StreamOk(v: View) {
    Replay(v.present, v.notes) == Some(v.cache.Some?)
  }

  ghost predicate RecordsOk(c: Local) {
    WellFormed(c) && forall i | 0 <= i < |c.records| :: Observable(c.records[i])
  }

  ghost predicate HandlersSafe(s: State) {
    && StreamOk(s.view)
    && RecordsOk(s.local)
    && (s.view.present ==> s.local.known.Some?)
    && (s.failure.None? || s.failure.value.NilInWorker?)
  }

  lemma DeliverOk(v: View, seen: Option<Pod>)
    requires StreamOk(v)
    ensures StreamOk(Deliver(v, seen))
  {
    if v.cache.Some? || seen.Some? {
      ReplayAppend(v.present, v.notes, Deliver(v, seen).notes[|v.notes|]);
    }
  }

  lemma InformOk(v: View, e: InformerEvent)
    requires StreamOk(v) && InformerEnabled(v, e) && !e.Handle?
    ensures StreamOk(Inform(v, e))
  {
    match e
    case WatchDeliver => DeliverOk(v.(watch := v.watch[1..]), v.watch[0]);
    case Relist => DeliverOk(v.(watch := []), v.api);
    case Resync => ReplayAppend(v.present, v.notes, Updated(v.cache.value, v.cache.value));
  }

  lemma HandleOk(s: State)
    requires HandlersSafe(s) && s.failure.None? && s.view.notes != []
    ensures HandlersSafe(HandleNote(s))
  {
  }

  lemma WorkOk(s: State, e: WorkEvent)
    requires HandlersSafe(s) && s.failure.None? && WorkEnabled(s.view, s.local, e)
    ensures HandlersSafe(ApplyWork(s, e))
  {
  }

  lemma SafeStep(s: State, e: Event)
    requires HandlersSafe(s) && Enabled(s, e)
    ensures HandlersSafe(Apply(s, e))
  {
    match e
    case Informer(i) =>
      if i.Handle? {
        HandleOk(s);
      } else {
        InformOk(s.view, i);
      }
    case Work(w) => WorkOk(s, w);
    case _ =>
  }

  /** For every run, whatever the provider, the API clients, the workers and the record replacements do,
      neither the panic nor the nil dereference of the informer's update handler is reached. */
  lemma {:induction false} HandlersNeverFail(s: State, events: seq<Event>)
    requires HandlersSafe(s) && ValidRun(s, events)
    ensures HandlersSafe(Exec(s, events))
    decreases |events|
  {
    if events != [] {
      SafeStep(s, events[0]);
      HandlersNeverFail(Apply(s, events[0]), events[1..]);
    }
  }

  lemma HandlersNeverFailFromStart(events: seq<Event>)
    requires ValidRun(INIT, events)
    ensures Exec(INIT, events).failure.None? || Exec(INIT, events).failure.value.NilInWorker?
  {
    assert HandlersSafe(INIT);
    HandlersNeverFail(INIT, events);
  }

  /** The event is no replacement by a successful UpdatePod. */
  predicate KeepsRecord(events: seq<Event>) {
    forall i | 0 <= i < |events| :: !events[i].ReplaceRecord?
  }

  /** As long as no successful UpdatePod puts a record in place, there is one exactly while the handled notifications
      say that the pod exists. */
  lemma {:induction false} KnownIffPresent(s: State, events: seq<Event>)
    requires HandlersSafe(s) && ValidRun(s, events) && KeepsRecord(events)
    requires s.local.known.Some? <==> s.view.present
    ensures Exec(s, events).local.known.Some? <==> Exec(s, events).view.present
    decreases |events|
  {
    if events != [] {
      assert !events[0].ReplaceRecord?;
      SafeStep(s, events[0]);
      KnownStep(s, events[0]);
      KnownIffPresent(Apply(s, events[0]), events[1..]);
    }
  }

  lemma KnownStep(s: State, e: Event)
    requires HandlersSafe(s) && Enabled(s, e) && !e.ReplaceRecord? && (s.local.known.Some? <==> s.view.present)
    ensures Apply(s, e).local.known.Some? <==> Apply(s, e).view.present
  {
    match e
    case Informer(i) =>
    case Work(w) =>
      var t := ApplyWork(s, w);
      assert t.local.known == s.local.known && t.view.present == s.view.present;
    case _ =>
  }

  // ----- Terminal pods are left alone -----

  /** The worker acts only on a pod that it saw alive. */
  predicate ActsOnLive(c: Local) {
    c.worker.Listed? || c.worker.Holding? || c.worker.Decided? ==>
      c.worker.kube.status.phase != Succeeded && c.worker.kube.status.phase != Failed
  }

  /** For every run, whatever else happens: no pass of the worker that lists a terminal pod decides anything or calls
      the API server. */
  lemma {:induction false} TerminalPodsAreLeftAlone(s: State, events: seq<Event>)
    requires WellFormed(s.local) && ValidRun(s, events) && ActsOnLive(s.local)
    ensures ActsOnLive(Exec(s, events).local)
    decreases |events|
  {
    if events != [] {
      TerminalPodsAreLeftAlone(Apply(s, events[0]), events[1..]);
    }
  }

  // ----- From which states the status worker can dereference a nil status -----

  /** The event puts an empty record in place: an Add notification, or a successful UpdatePod. */
  predicate Replaces(s: State, e: Event) {
    e.ReplaceRecord? || (e == Informer(Handle) && s.view.notes != [] && s.view.notes[0].Added?)
  }

  /** Records are replaced only while the key is quiet. */
  predicate QuietReplacements(s: State, events: seq<Event>)
    requires WellFormed(s.local) && ValidRun(s, events)
    decreases |events|
  {
    events == [] ||
    (&& (Replaces(s, events[0]) ==> Quiet(s.local))
     && QuietReplacements(Apply(s, events[0]), events[1..]))
  }

  ghost predicate HasStatus(c: Local, i: nat) {
    i < |c.records| && c.records[i].fromProvider.Some?
  }

  /** The callback will leave the key alone: its status is what its record holds already. */
  predicate Redundant(c: Local, n: Notifier)
    requires n.Loaded? ==> n.record < |c.records|
  {
    n.Loaded? && c.records[n.record].fromProvider == Some(n.pod)
  }

  /** The worker's pass ends without touching the record in place and without coming back. */
  predicate Ending(c: Local)
    requires WellFormed(c)
  {
    c.worker.Idle? || (c.worker.Holding? && Decide(c.records[c.worker.record], c.worker.kube).1.Skip?)
  }

  /** While the record in place holds no status, nothing is under way that could make the worker take it up:
      only callbacks about to give it one, redundant callbacks for older records, and a pass that ends. */
  ghost predicate NilSafe(c: Local) {
    && WellFormed(c)
    && (c.worker.Holding? ==> HasStatus(c, c.worker.record))
    && (c.known.Some? && !HasStatus(c, c.known.value) ==>
          && !c.queued && Ending(c)
          && forall i | 0 <= i < |c.notifiers| ::
               Redundant(c, c.notifiers[i]) || (c.notifiers[i].Loaded? && c.notifiers[i].record == c.known.value))
  }

  lemma NilSafeNotify(c: Local, e: NotifyEvent)
    requires NilSafe(c) && NotifyEnabled(c, e)
    ensures NilSafe(ApplyNotify(c, e))
  {
  }

  lemma NilSafeWork(s: State, e: WorkEvent)
    requires NilSafe(s.local) && s.failure.None? && WorkEnabled(s.view, s.local, e)
    ensures NilSafe(ApplyWork(s, e).local) && ApplyWork(s, e).failure.None?
  {
  }

  lemma NilSafeHandle(s: State)
    requires NilSafe(s.local) && s.view.notes != [] && (s.view.notes[0].Added? ==> Quiet(s.local))
    ensures NilSafe(HandleNote(s).local)
    ensures s.failure != Some(NilInWorker) ==> HandleNote(s).failure != Some(NilInWorker)
  {
  }

  lemma NilSafeStep(s: State, e: Event)
    requires NilSafe(s.local) && Enabled(s, e) && (Replaces(s, e) ==> Quiet(s.local))
    ensures NilSafe(Apply(s, e).local) && Apply(s, e).failure != Some(NilInWorker)
  {
    match e
    case Informer(i) =>
      if i.Handle? {
        NilSafeHandle(s);
      }
    case Notify(n) => NilSafeNotify(s.local, n);
    case Work(w) => NilSafeWork(s, w);
    case _ =>
  }

  /** A run that replaces records only while the key is quiet never crashes the worker. */
  lemma {:induction false} QuietRunsNeverCrash(s: State, events: seq<Event>)
    requires NilSafe(s.local) && s.failure != Some(NilInWorker)
    requires ValidRun(s, events) && QuietReplacements(s, events)
    ensures NilSafe(Exec(s, events).local)
    ensures Exec(s, events).failure != Some(NilInWorker)
    decreases |events|
  {
    if events != [] {
      NilSafeStep(s, events[0]);
      QuietRunsNeverCrash(Apply(s, events[0]), events[1..]);
    }
  }

  // ----- The converse: from every other state the crash is a few steps away -----

  ghost predicate CrashRun(s: State, events: seq<Event>)
    requires WellFormed(s.local)
  {
    ValidRun(s, events) && QuietReplacements(s, events) && Exec(s, events).failure == Some(NilInWorker)
  }

  /** Some run without untimely replacements ends in the worker's nil dereference. */
  ghost predicate CanCrash(s: State) {
    WellFormed(s.local) && exists events :: CrashRun(s, events)
  }

  lemma CrashesNow(s: State)
    requires WellFormed(s.local) && s.failure == Some(NilInWorker)
    ensures CanCrash(s)
  {
    assert CrashRun(s, []);
  }

  lemma CrashesNext(s: State, e: Event)
    requires Enabled(s, e) && !Replaces(s, e) && CanCrash(Apply(s, e))
    ensures CanCrash(s)
  {
    var rest :| CrashRun(Apply(s, e), rest);
    assert ([e] + rest)[1..] == rest;
    assert CrashRun(s, [e] + rest);
  }

  /** The lister shows a pod that is not terminal. */
  predicate Live(v: View) {
    v.cache.Some? && !IsTerminal(v.cache.value.status)
  }

  /** The worker can reach the record in place, which holds no status. */
  ghost predicate Exposed(s: State) {
    && WellFormed(s.local) && s.failure.None?
    && s.local.known.Some? && !HasStatus(s.local, s.local.known.value) && Live(s.view)
  }

  lemma HoldingCrashes(s: State)
    requires WellFormed(s.local) && s.failure.None?
    requires s.local.worker.Holding? && !HasStatus(s.local, s.local.worker.record)
    ensures CanCrash(s)
  {
    CrashesNow(Apply(s, Work(Lock)));
    CrashesNext(s, Work(Lock));
  }

  lemma ListedCrashes(s: State)
    requires Exposed(s) && s.local.worker.Listed?
    ensures CanCrash(s)
  {
    HoldingCrashes(Apply(s, Work(Acquire)));
    CrashesNext(s, Work(Acquire));
  }

  lemma PickedCrashes(s: State)
    requires Exposed(s) && s.local.worker.Picked?
    ensures CanCrash(s)
  {
    ListedCrashes(Apply(s, Work(List)));
    CrashesNext(s, Work(List));
  }

  lemma QueuedIdleCrashes(s: State)
    requires Exposed(s) && s.local.worker.Idle? && s.local.queued
    ensures CanCrash(s)
  {
    PickedCrashes(Apply(s, Work(Pick)));
    CrashesNext(s, Work(Pick));
  }

  /** A failed API call puts the key back on the queue. */
  lemma DecidedCrashes(s: State)
    requires Exposed(s) && s.local.worker.Decided?
    ensures CanCrash(s)
  {
    var o := Error(false, true);
    var e := if MustDelete(s.local.worker) then Work(CallDelete(o, Removes)) else Work(CallUpdate(o));
    QueuedIdleCrashes(Apply(s, e));
    CrashesNext(s, e);
  }

  lemma OverwritingCrashes(s: State)
    requires Exposed(s) && s.local.worker.Holding? && !Ending(s.local)
    ensures CanCrash(s)
  {
    if HasStatus(s.local, s.local.worker.record) {
      DecidedCrashes(Apply(s, Work(Lock)));
      CrashesNext(s, Work(Lock));
    } else {
      HoldingCrashes(s);
    }
  }

  lemma QueuedCrashes(s: State)
    requires Exposed(s) && s.local.queued
    ensures CanCrash(s)
  {
    match s.local.worker
    case Idle => QueuedIdleCrashes(s);
    case Picked => PickedCrashes(s);
    case Listed(_) => ListedCrashes(s);
    case Decided(_, _, _) => DecidedCrashes(s);
    case Holding(_, _) =>
      if Ending(s.local) {
        QueuedIdleCrashes(Apply(s, Work(Lock)));
        CrashesNext(s, Work(Lock));
      } else {
        OverwritingCrashes(s);
      }
  }

  lemma StoredCrashes(s: State, i: nat)
    requires Exposed(s) && i < |s.local.notifiers| && s.local.notifiers[i].Stored?
    ensures CanCrash(s)
  {
    QueuedCrashes(Apply(s, Notify(Enqueue(i))));
    CrashesNext(s, Notify(Enqueue(i)));
  }

  /** A callback that changes a record which is no longer in place still enqueues the key. */
  lemma LoadedCrashes(s: State, i: nat)
    requires Exposed(s) && i < |s.local.notifiers| && s.local.notifiers[i].Loaded?
    requires s.local.notifiers[i].record != s.local.known.value && !Redundant(s.local, s.local.notifiers[i])
    ensures CanCrash(s)
  {
    var e := Notify(Store(i, s.local.notifiers[i].pod));
    StoredCrashes(Apply(s, e), i);
    CrashesNext(s, e);
  }

  lemma ExposedCrashes(s: State)
    requires Exposed(s) && !NilSafe(s.local)
    ensures CanCrash(s)
  {
    var c := s.local;
    if c.worker.Holding? && !HasStatus(c, c.worker.record) {
      HoldingCrashes(s);
    } else if c.queued {
      QueuedCrashes(s);
    } else if !Ending(c) {
      match c.worker
      case Picked => PickedCrashes(s);
      case Listed(_) => ListedCrashes(s);
      case Decided(_, _, _) => DecidedCrashes(s);
      case Holding(_, _) => OverwritingCrashes(s);
    } else {
      var i :| 0 <= i < |c.notifiers| && !Redundant(c, c.notifiers[i]) &&
               !(c.notifiers[i].Loaded? && c.notifiers[i].record == c.known.value);
      if c.notifiers[i].Stored? {
        StoredCrashes(s, i);
      } else {
        LoadedCrashes(s, i);
      }
    }
  }

  const LIVE_STATUS: PodStatus := PodStatus(Pending, "", "", [])

  /** Another client and the informer can always bring a live pod into the lister. */
  lemma CacheCanComeAlive(s: State)
    requires WellFormed(s.local) && s.failure.None?
    requires forall t: State | t.local == s.local && t.failure.None? && Live(t.view) :: CanCrash(t)
    ensures CanCrash(s)
  {
    var pod := Pod("", "", map[], map[], None, None, PodSpec([], [], None, [], ""), LIVE_STATUS);
    var e := Api(if s.view.api.None? then Create(pod) else SetStatus(LIVE_STATUS));
    var s1 := Apply(s, e);
    var s2 := Apply(s1, Informer(Relist));
    assert s2.view.cache == s1.view.api && s1.view.api.value.status == LIVE_STATUS;
    assert CanCrash(s2);
    CrashesNext(s1, Informer(Relist));
    CrashesNext(s, e);
  }

  /** `NilSafe` is exact: of all states, these are the ones from which the worker cannot crash as long as records
      are replaced only while the key is quiet. */
  lemma CanCrashIffNotNilSafe(s: State)
    requires WellFormed(s.local) && s.failure.None?
    ensures CanCrash(s) <==> !NilSafe(s.local)
  {
    var c := s.local;
    if NilSafe(c) {
      forall events
        ensures !CrashRun(s, events)
      {
        if ValidRun(s, events) && QuietReplacements(s, events) {
          QuietRunsNeverCrash(s, events);
        }
      }
    } else if c.worker.Holding? && !HasStatus(c, c.worker.record) {
      HoldingCrashes(s);
    } else {
      forall t: State | t.local == c && t.failure.None? && Live(t.view)
        ensures CanCrash(t)
      {
        ExposedCrashes(t);
      }
      CacheCanComeAlive(s);
    }
  }

  /** Something is under way for the key that a replacement of its record turns into a crash. */
  ghost predicate Dangerous(c: Local)
    requires WellFormed(c)
  {
    || c.queued
    || c.worker.Picked? || c.worker.Listed? || c.worker.Decided?
    || (c.worker.Holding? && !Decide(c.records[c.worker.record], c.worker.kube).1.Skip?)
    || exists i :: 0 <= i < |c.notifiers| && !Redundant(c, c.notifiers[i])
  }

  /** Exactly when a successful UpdatePod is dangerous, in every state: the worker may crash afterwards if and only
      if the key is queued, the worker is in the middle of a pass other than one that is about to skip, or a
      callback is in flight that has changed or will change its record. */
  lemma ReplacementCrashesIffDangerous(s: State)
    requires Enabled(s, ReplaceRecord)
    ensures CanCrash(Apply(s, ReplaceRecord)) <==> Dangerous(s.local)
  {
    var c, t := s.local, Apply(s, ReplaceRecord);
    CanCrashIffNotNilSafe(t);
    assert !HasStatus(t.local, t.local.known.value);
    forall i | 0 <= i < |c.notifiers|
      ensures Redundant(c, c.notifiers[i]) <==>
              Redundant(t.local, t.local.notifiers[i]) ||
              (t.local.notifiers[i].Loaded? && t.local.notifiers[i].record == t.local.known.value)
    {
    }
  }

  /** The crash happens: a status is stored and queued, UpdatePod replaces the record, the worker runs. */
  lemma CrashIsReachable(pod: Pod)
    requires !IsTerminal(pod.status)
    ensures exists events :: ValidRun(INIT, events) && Exec(INIT, events).failure == Some(NilInWorker)
  {
    PodArrives(pod);
    var s := Exec(INIT, Arrival(pod));
    PodStatusConvergence.StatusArrivesOrderly(s, pod);
    var t := Exec(s, Notification(pod));
    ReplacementCrashesIffDangerous(t);
    var rest :| CrashRun(Apply(t, ReplaceRecord), rest);
    var last := [ReplaceRecord] + rest;
    assert last[1..] == rest;
    RunAppend(s, Notification(pod), last);
    RunAppend(INIT, Arrival(pod), Notification(pod) + last);
  }
}
