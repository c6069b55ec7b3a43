/** Status reconciliation of one pod key as a step system.

    Actors: the API server and its other clients, the informer (a watch queue feeding the cache, and a
    notification queue feeding the event handlers, which lag behind the cache), any number of provider
    callbacks in flight, one status worker (the work queue never runs a key twice at once), and the pod
    sync worker, which appears only through the record it replaces after a successful UpdatePod. */
module PodStatusProtocol {
  import opened Pods
  import opened KnownPods

  datatype Note = Added(pod: Pod) | Updated(before: Pod, after: Pod) | Deleted

  /** The API object, what the informer has not yet delivered, its cache, the notifications its handlers
      have not yet seen, and whether the handled notifications say that the pod exists. */
  datatype View = View(api: Option<Pod>, watch: seq<Option<Pod>>, cache: Option<Pod>,
                       notes: seq<Note>, present: bool)

  /** A provider callback between loading the record, storing the status, and enqueuing the key. */
  datatype Notifier = Loaded(record: nat, pod: Pod) | Stored

  datatype Worker =
    | Idle
    | Picked
    | Listed(kube: Pod)
    | Holding(kube: Pod, record: nat)
    | Decided(kube: Pod, out: Pod, deleted: bool)

  /** The controller: every record ever allocated, the one that knownPods holds for the key, the callbacks
      in flight, and the key's place in the status queue. */
  datatype Local = Local(records: seq<Record>, known: Option<nat>, notifiers: seq<Notifier>,
                         queued: bool, worker: Worker)

  datatype Failure = UnknownPod | NilInHandler | NilInWorker

  datatype State = State(view: View, local: Local, failure: Option<Failure>)

  const INIT: State := State(View(None, [], None, [], false), Local([], None, [], false, Idle), None)

  /** An API call succeeds, or reports an error after having been applied or not; a reported error puts the
      key back on the queue until the retries are used up. */
  datatype Outcome = Ok | Error(applied: bool, requeue: bool)

  datatype Removal = MarksDeleting(timestamp: int) | Removes

  /** Other clients of the API server. */
  datatype ApiEvent = Create(pod: Pod) | Modify(pod: Pod) | SetStatus(status: PodStatus) | Remove

  datatype InformerEvent = WatchDeliver | Relist | Resync | Handle

  datatype NotifyEvent = Load(pod: Pod) | Store(i: nat, pod: Pod) | Enqueue(i: nat)

  datatype WorkEvent =
    | Pick
    | List
    | Acquire
    | Lock
    | CallDelete(outcome: Outcome, removal: Removal)
    | CallUpdate(outcome: Outcome)

  datatype Event =
    | Api(api: ApiEvent)
    | Informer(informer: InformerEvent)
    | Notify(notify: NotifyEvent)
    | Work(work: WorkEvent)
    | ReplaceRecord

  // ----- Which events can happen -----

  /** Record references point at allocated records. */
  predicate WellFormed(c: Local) {
    && (c.known.Some? ==> c.known.value < |c.records|)
    && (forall i | 0 <= i < |c.notifiers| :: c.notifiers[i].Loaded? ==> c.notifiers[i].record < |c.records|)
    && (c.worker.Holding? ==> c.worker.record < |c.records|)
  }

  predicate ApiEnabled(v: View, e: ApiEvent) {
    match e
    case Create(_) => v.api.None?
    case Modify(p) => v.api.Some? && p.uid == v.api.value.uid && p.status == v.api.value.status
    case SetStatus(_) => v.api.Some?
    case Remove => v.api.Some?
  }

  predicate InformerEnabled(v: View, e: InformerEvent) {
    match e
    case WatchDeliver => v.watch != []
    case Relist => true
    case Resync => v.cache.Some?
    case Handle => v.notes != []
  }

  predicate NotifyEnabled(c: Local, e: NotifyEvent) {
    match e
    case Load(_) => c.known.Some?
    case Store(i, p) => i < |c.notifiers| && c.notifiers[i].Loaded? && c.notifiers[i].pod == p
    case Enqueue(i) => i < |c.notifiers| && c.notifiers[i].Stored?
  }

  /** The worker deletes the API pod first when the provider's pod is going away and the API's is not. */
  predicate MustDelete(w: Worker)
    requires w.Decided?
  {
    && !w.deleted
    && w.out.deletionTimestamp.Some? && w.kube.deletionTimestamp.None?
    && w.kube.status == w.out.status
  }

  predicate WorkEnabled(v: View, c: Local, e: WorkEvent) {
    match e
    case Pick => c.queued && c.worker.Idle?
    case List => c.worker.Picked?
    case Acquire => c.worker.Listed?
    case Lock => c.worker.Holding?
    case CallDelete(_, _) => c.worker.Decided? && MustDelete(c.worker)
    case CallUpdate(o) =>
      && c.worker.Decided? && !MustDelete(c.worker)
      // The update is refused when the pod that it carries has another UID.
      && (v.api.Some? && v.api.value.uid != c.worker.out.uid ==> o.Error? && !o.applied)
  }

  predicate Enabled(s: State, e: Event) {
    && WellFormed(s.local)
    && s.failure.None?
    && match e
       case Api(a) => ApiEnabled(s.view, a)
       case Informer(i) => InformerEnabled(s.view, i)
       case Notify(n) => NotifyEnabled(s.local, n)
       case Work(w) => WorkEnabled(s.view, s.local, w)
       case ReplaceRecord => true
  }

  // ----- What the events do -----

  function WriteApi(v: View, p: Option<Pod>): View {
    if v.api == p then v else v.(api := p, watch := v.watch + [p])
  }

  function ApplyApi(v: View, e: ApiEvent): View
    requires ApiEnabled(v, e)
  {
    match e
    case Create(p) => WriteApi(v, Some(p))
    case Modify(p) => WriteApi(v, Some(p))
    case SetStatus(st) => WriteApi(v, Some(v.api.value.(status := st)))
    case Remove => WriteApi(v, None)
  }

  /** The informer stores what the watch delivers and notifies the handlers of the difference. */
  function Deliver(v: View, seen: Option<Pod>): View {
    match (v.cache, seen)
    case (None, None) => v
    case (None, Some(p)) => v.(cache := seen, notes := v.notes + [Added(p)])
    case (Some(c), Some(p)) => v.(cache := seen, notes := v.notes + [Updated(c, p)])
    case (Some(_), None) => v.(cache := seen, notes := v.notes + [Deleted])
  }

  /** The informer's own steps, all but the call of a handler. */
  function Inform(v: View, e: InformerEvent): View
    requires InformerEnabled(v, e) && !e.Handle?
  {
    match e
    case WatchDeliver => Deliver(v.(watch := v.watch[1..]), v.watch[0])
    case Relist => Deliver(v.(watch := []), v.api)
    case Resync => v.(notes := v.notes + [Updated(v.cache.value, v.cache.value)])
  }

  function FreshRecord(c: Local): (d: Local)
    requires WellFormed(c)
    ensures WellFormed(d)
  {
    c.(records := c.records + [EMPTY_RECORD], known := Some(|c.records|))
  }

  /** The informer's update handler. */
  function HandleUpdate(c: Local, seen: PodStatus): (r: (Local, Option<Failure>))
    requires WellFormed(c)
    ensures WellFormed(r.0)
  {
    if c.known.None? then (c, Some(UnknownPod))
    else if !Observable(c.records[c.known.value]) then (c, Some(NilInHandler))
    else
      var (r, enqueue) := Observe(c.records[c.known.value], seen);
      (c.(records := c.records[c.known.value := r], queued := c.queued || enqueue), None)
  }

  function HandleNote(s: State): (t: State)
    requires WellFormed(s.local) && s.view.notes != []
    ensures WellFormed(t.local)
  {
    var v := s.view.(notes := s.view.notes[1..]);
    match s.view.notes[0]
    case Added(_) => s.(view := v.(present := true), local := FreshRecord(s.local))
    case Deleted => s.(view := v.(present := false), local := s.local.(known := None))
    case Updated(_, p) => var (c, f) := HandleUpdate(s.local, p.status); State(v, c, f)
  }

  function ApplyNotify(c: Local, e: NotifyEvent): (d: Local)
    requires WellFormed(c) && NotifyEnabled(c, e)
    ensures WellFormed(d)
  {
    match e
    case Load(p) => c.(notifiers := c.notifiers + [Loaded(c.known.value, p)])
    case Store(i, p) =>
      var (r, changed) := StoreStatus(c.records[c.notifiers[i].record], p);
      c.(records := c.records[c.notifiers[i].record := r],
         notifiers := if changed then c.notifiers[i := Stored] else Without(c.notifiers, i))
    case Enqueue(i) => c.(queued := true, notifiers := Without(c.notifiers, i))
  }

  function Locked(c: Local): (r: (Local, Option<Failure>))
    requires WellFormed(c) && c.worker.Holding?
    ensures WellFormed(r.0)
  {
    var (r, d) := Decide(c.records[c.worker.record], c.worker.kube);
    match d
    case NilStatus => (c, Some(NilInWorker))
    case Skip => (c.(records := c.records[c.worker.record := r], worker := Idle), None)
    case Overwrite(p) =>
      (c.(records := c.records[c.worker.record := r], worker := Decided(c.worker.kube, p, false)), None)
  }

  function DeleteApi(v: View, removal: Removal): View {
    if v.api.None? then v
    else match removal
         case Removes => WriteApi(v, None)
         case MarksDeleting(t) => WriteApi(v, Some(v.api.value.(deletionTimestamp := Some(t))))
  }

  function UpdateApi(v: View, status: PodStatus): View {
    if v.api.None? then v else WriteApi(v, Some(v.api.value.(status := status)))
  }

  /** The view after a call that `would` change it. */
  function Called(v: View, would: View, o: Outcome): View {
    if o.Ok? || o.applied then would else v
  }

  function Returned(c: Local, next: Worker, o: Outcome): Local {
    if o.Ok? then c.(worker := next) else c.(worker := Idle, queued := c.queued || o.requeue)
  }

  function ApplyWork(s: State, e: WorkEvent): (t: State)
    requires WellFormed(s.local) && WorkEnabled(s.view, s.local, e)
    ensures WellFormed(t.local)
  {
    var v, c := s.view, s.local;
    match e
    case Pick => s.(local := c.(queued := false, worker := Picked))
    case List =>
      if v.cache.None? || IsTerminal(v.cache.value.status) then s.(local := c.(worker := Idle))
      else s.(local := c.(worker := Listed(v.cache.value)))
    case Acquire =>
      if c.known.None? then s.(local := c.(worker := Idle))
      else s.(local := c.(worker := Holding(c.worker.kube, c.known.value)))
    case Lock => var (d, f) := Locked(c); State(v, d, f)
    case CallDelete(o, removal) =>
      s.(view := Called(v, DeleteApi(v, removal), o), local := Returned(c, c.worker.(deleted := true), o))
    case CallUpdate(o) =>
      s.(view := Called(v, UpdateApi(v, c.worker.out.status), o), local := Returned(c, Idle, o))
  }

  function Apply(s: State, e: Event): (t: State)
    requires Enabled(s, e)
    ensures WellFormed(t.local)
  {
    match e
    case Api(a) => s.(view := ApplyApi(s.view, a))
    case Informer(i) => if i.Handle? then HandleNote(s) else s.(view := Inform(s.view, i))
    case Notify(n) => s.(local := ApplyNotify(s.local, n))
    case Work(w) => ApplyWork(s, w)
    case ReplaceRecord => s.(local := FreshRecord(s.local))
  }

  predicate ValidRun(s: State, events: seq<Event>)
    requires WellFormed(s.local)
    decreases |events|
  {
    events == [] || (Enabled(s, events[0]) && ValidRun(Apply(s, events[0]), events[1..]))
  }

  function Exec(s: State, events: seq<Event>): (t: State)
    requires WellFormed(s.local) && ValidRun(s, events)
    ensures WellFormed(t.local)
    decreases |events|
  {
    if events == [] then s else Exec(Apply(s, events[0]), events[1..])
  }

  /** Nothing is under way for the key: no callback in flight, not queued, not being worked on. */
  predicate Quiet(c: Local) {
    c.notifiers == [] && !c.queued && c.worker.Idle?
  }

  lemma {:induction false} RunAppend(s: State, a: seq<Event>, b: seq<Event>)
    requires WellFormed(s.local)
    ensures ValidRun(s, a + b) <==> ValidRun(s, a) && ValidRun(Exec(s, a), b)
    ensures ValidRun(s, a + b) ==> Exec(s, a + b) == Exec(Exec(s, a), b)
    decreases |a|
  {
    if a == [] {
      assert a + b == b;
    } else {
      assert (a + b)[0] == a[0] && (a + b)[1..] == a[1..] + b;
      if Enabled(s, a[0]) {
        RunAppend(Apply(s, a[0]), a[1..], b);
      }
    }
  }

  /** A listed sequence of states, each one step after the other, is a run. */
  lemma {:induction false} FollowTrace(states: seq<State>, events: seq<Event>)
    requires |states| == |events| + 1
    requires forall i | 0 <= i < |events| ::
               Enabled(states[i], events[i]) && Apply(states[i], events[i]) == states[i + 1]
    requires WellFormed(states[0].local)
    ensures ValidRun(states[0], events) && Exec(states[0], events) == states[|events|]
    decreases |events|
  {
    if events != [] {
      assert Apply(states[0], events[0]) == states[1];
      FollowTrace(states[1..], events[1..]);
    }
  }

  /** The pod is created and the informer's add handler runs. */
  function Arrival(pod: Pod): seq<Event> {
    [Api(Create(pod)), Informer(WatchDeliver), Informer(Handle)]
  }

  lemma PodArrives(pod: Pod)
    ensures ValidRun(INIT, Arrival(pod))
    ensures Exec(INIT, Arrival(pod)) ==
            State(View(Some(pod), [], Some(pod), [], true), Local([EMPTY_RECORD], Some(0), [], false, Idle), None)
  {
    var s1 := State(View(Some(pod), [Some(pod)], None, [], false), INIT.local, None);
    var s2 := State(View(Some(pod), [], Some(pod), [Added(pod)], false), INIT.local, None);
    var s3 := State(View(Some(pod), [], Some(pod), [], true), Local([EMPTY_RECORD], Some(0), [], false, Idle), None);
    assert Apply(INIT, Api(Create(pod))) == s1;
    assert Apply(s1, Informer(WatchDeliver)) == s2;
    assert Apply(s2, Informer(Handle)) == s3;
    FollowTrace([INIT, s1, s2, s3], Arrival(pod));
  }

  /** One provider callback from beginning to end. */
  function Notification(pod: Pod): seq<Event> {
    [Notify(Load(pod)), Notify(Store(0, pod)), Notify(Enqueue(0))]
  }

  function StatusStored(c: Local, id: nat, pod: Pod): Local
    requires id < |c.records|
  {
    c.(records := c.records[id := c.records[id].(fromProvider := Some(pod))])
  }

  lemma StatusArrivesLocally(c: Local, id: nat, pod: Pod)
    requires WellFormed(c) && c.known == Some(id) && c.notifiers == [] && c.records[id].fromProvider != Some(pod)
    ensures var c1 := c.(notifiers := [Loaded(id, pod)]);
            var c2 := StatusStored(c, id, pod).(notifiers := [Stored]);
            && ApplyNotify(c, Load(pod)) == c1
            && ApplyNotify(c1, Store(0, pod)) == c2
            && ApplyNotify(c2, Enqueue(0)) == StatusStored(c, id, pod).(queued := true)
  {
  }
}
