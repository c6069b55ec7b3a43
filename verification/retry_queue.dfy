/** Retry accounting of the work queues. All queues of the pod controller share one rate limiter, so that a key's
    failure count is common to them. */
module RetryQueue {

  type Key = string

  const MAX_RETRIES: nat := 20

  type Failures = map<Key, nat>

  function NumRequeues(f: Failures, key: Key): nat {
    if key in f then f[key] else 0
  }

  function Counted(f: Failures, key: Key): Failures {
    f[key := NumRequeues(f, key) + 1]
  }

  function Forgotten(f: Failures, key: Key): Failures {
    f - {key}
  }

  /** Keys waiting, at once or after a delay, and keys in the hands of a worker. A key is never in the hands of two. */
  datatype QueueState = QueueState(pending: set<Key>, processing: set<Key>)

  datatype System = System(failures: Failures, queues: seq<QueueState>)

  datatype Event =
    | Enqueue(queue: nat, key: Key)
    | EnqueueWithoutRateLimit(queue: nat, key: Key)
    | Forget(key: Key)
    | Get(queue: nat, key: Key)
    | Complete(queue: nat, key: Key, failed: bool)

  predicate Enabled(s: System, e: Event) {
    match e
    case Enqueue(q, _) => q < |s.queues|
    case EnqueueWithoutRateLimit(q, _) => q < |s.queues|
    case Forget(_) => true
    case Get(q, k) => q < |s.queues| && k in s.queues[q].pending && k !in s.queues[q].processing
    case Complete(q, k, _) => q < |s.queues| && k in s.queues[q].processing
  }

  function Added(q: QueueState, key: Key): QueueState {
    q.(pending := q.pending + {key})
  }

  /** handleQueueItemObject after the handler has returned. */
  function Completed(f: Failures, q: QueueState, key: Key, failed: bool): (Failures, QueueState) {
    var done := q.(processing := q.processing - {key});
    if failed && NumRequeues(f, key) < MAX_RETRIES then (Counted(f, key), Added(done, key))
    else (Forgotten(f, key), done)
  }

  function Apply(s: System, e: Event): System
    requires Enabled(s, e)
  {
    match e
    case Enqueue(q, k) => System(Counted(s.failures, k), s.queues[q := Added(s.queues[q], k)])
    case EnqueueWithoutRateLimit(q, k) => s.(queues := s.queues[q := Added(s.queues[q], k)])
    case Forget(k) => s.(failures := Forgotten(s.failures, k))
    case Get(q, k) =>
      s.(queues := s.queues[q := QueueState(s.queues[q].pending - {k}, s.queues[q].processing + {k})])
    case Complete(q, k, failed) =>
      var (f, state) := Completed(s.failures, s.queues[q], k, failed);
      System(f, s.queues[q := state])
  }

  predicate ValidRun(s: System, events: seq<Event>)
    decreases |events|
  {
    events == [] || (Enabled(s, events[0]) && ValidRun(Apply(s, events[0]), events[1..]))
  }

  function Exec(s: System, events: seq<Event>): System
    requires ValidRun(s, events)
    decreases |events|
  {
    if events == [] then s else Exec(Apply(s, events[0]), events[1..])
  }

  // ----- The retry bound across all queues -----

  predicate Fails(e: Event, key: Key) {
    e.Complete? && e.key == key && e.failed
  }

  /** The event forgets the key's failures: success in any queue, giving up, or an explicit Forget. */
  predicate Resets(s: System, e: Event, key: Key) {
    && (e.Forget? || e.Complete?) && e.key == key
    && (Fails(e, key) ==> NumRequeues(s.failures, key) >= MAX_RETRIES)
  }

  predicate NoReset(s: System, events: seq<Event>, key: Key)
    requires ValidRun(s, events)
    decreases |events|
  {
    events == [] || (!Resets(s, events[0], key) && NoReset(Apply(s, events[0]), events[1..], key))
  }

  function FailingRuns(events: seq<Event>, key: Key): nat {
    if events == [] then 0 else (if Fails(events[0], key) then 1 else 0) + FailingRuns(events[1..], key)
  }

  function Budget(s: System, key: Key): nat {
    if NumRequeues(s.failures, key) < MAX_RETRIES then MAX_RETRIES - NumRequeues(s.failures, key) else 0
  }

  /** Every failing run that is retried uses up one unit of a budget that only a reset restores. */
  lemma {:induction false} RetriesAreBounded(s: System, events: seq<Event>, key: Key)
    requires ValidRun(s, events) && NoReset(s, events, key)
    ensures FailingRuns(events, key) + Budget(Exec(s, events), key) <= Budget(s, key)
    decreases |events|
  {
    if events != [] {
      RetriesAreBounded(Apply(s, events[0]), events[1..], key);
    }
  }

  lemma {:induction false} FailingRunsAppend(a: seq<Event>, e: Event, key: Key)
    ensures FailingRuns(a + [e], key) == FailingRuns(a, key) + (if Fails(e, key) then 1 else 0)
    decreases |a|
  {
    if a == [] {
      assert a + [e] == [e];
    } else {
      assert (a + [e])[1..] == a[1..] + [e];
      FailingRunsAppend(a[1..], e, key);
    }
  }

  /** Between two resets, the second included, the handlers of all queues together fail at most 21 times. */
  lemma AtMostMaxRetriesPlusOne(s: System, events: seq<Event>, last: Event, key: Key)
    requires ValidRun(s, events) && NoReset(s, events, key)
    ensures FailingRuns(events + [last], key) <= MAX_RETRIES + 1
  {
    RetriesAreBounded(s, events, key);
    FailingRunsAppend(events, last, key);
  }

  // ----- One key at a time -----

  /** Where a key stands in one queue. */
  predicate SamePlace(q: QueueState, r: QueueState, key: Key) {
    (key in q.pending <==> key in r.pending) && (key in q.processing <==> key in r.processing)
  }

  /** No event changes the place or the count of another key, in any queue. */
  lemma OtherKeysKeepTheirPlace(s: System, e: Event, key: Key)
    requires Enabled(s, e) && e.key != key
    ensures |Apply(s, e).queues| == |s.queues|
    ensures forall i | 0 <= i < |s.queues| :: SamePlace(s.queues[i], Apply(s, e).queues[i], key)
    ensures NumRequeues(Apply(s, e).failures, key) == NumRequeues(s.failures, key)
  {
  }

  /** What the end of a handler does to its own key: it leaves the worker's hands; after a success its count is
      forgotten, and it is pending only if it was added meanwhile; after a failure it is pending and counted once more
      as long as the count was below 20, and otherwise treated like a success. The other queues keep it as it was. */
  lemma CompletionSettlesKey(s: System, q: nat, key: Key, failed: bool)
    requires Enabled(s, Complete(q, key, failed))
    ensures var t := Apply(s, Complete(q, key, failed));
            var retried := failed && NumRequeues(s.failures, key) < 20;
            && |t.queues| == |s.queues| && key !in t.queues[q].processing
            && (key in t.queues[q].pending <==> retried || key in s.queues[q].pending)
            && NumRequeues(t.failures, key) == (if retried then NumRequeues(s.failures, key) + 1 else 0)
            && forall i | 0 <= i < |s.queues| && i != q :: SamePlace(s.queues[i], t.queues[i], key)
  {
  }

  /** A key is added by every kind of enqueuing, and only counted by the rate-limited one. */
  lemma EnqueuingAdds(s: System, q: nat, key: Key)
    requires q < |s.queues|
    ensures var t, u := Apply(s, Enqueue(q, key)), Apply(s, EnqueueWithoutRateLimit(q, key));
            && t.queues == u.queues && |t.queues| == |s.queues| && key in t.queues[q].pending
            && (key in t.queues[q].processing <==> key in s.queues[q].processing)
            && NumRequeues(t.failures, key) == NumRequeues(s.failures, key) + 1 && u.failures == s.failures
  {
  }

  function ResetCount(s: System, events: seq<Event>, key: Key): nat
    requires ValidRun(s, events)
    decreases |events|
  {
    if events == [] then 0
    else (if Resets(s, events[0], key) then 1 else 0) + ResetCount(Apply(s, events[0]), events[1..], key)
  }

  /** Over a whole run: at most 21 failing runs for every reset, and those that the budget at the start allows. */
  lemma {:induction false} WholeRunBound(s: System, events: seq<Event>, key: Key)
    requires ValidRun(s, events)
    ensures FailingRuns(events, key) + Budget(Exec(s, events), key) <=
            Budget(s, key) + (MAX_RETRIES + 1) * ResetCount(s, events, key)
    decreases |events|
  {
    if events != [] {
      WholeRunBound(Apply(s, events[0]), events[1..], key);
    }
  }

  // ----- Sharing the limiter defeats the bound -----

  /** Queue 0 fails while queue 1 succeeds with the same key. */
  function Round(key: Key): seq<Event> {
    [Get(0, key), Complete(0, key, true), EnqueueWithoutRateLimit(1, key), Get(1, key), Complete(1, key, false)]
  }

  function Rounds(key: Key, n: nat): seq<Event> {
    if n == 0 then [] else Round(key) + Rounds(key, n - 1)
  }

  ghost predicate Waiting(s: System, key: Key) {
    && |s.queues| == 3 && NumRequeues(s.failures, key) < MAX_RETRIES
    && key in s.queues[0].pending && key !in s.queues[0].processing
    && key !in s.queues[1].processing
  }

  lemma OneRound(s: System, key: Key, rest: seq<Event>)
    requires Waiting(s, key)
    ensures exists t :: Waiting(t, key) && NumRequeues(t.failures, key) == 0 &&
                        (ValidRun(t, rest) ==>
                           ValidRun(s, Round(key) + rest) && Exec(s, Round(key) + rest) == Exec(t, rest))
  {
    var e := Round(key) + rest;
    var s1 := Apply(s, Get(0, key));
    var s2 := Apply(s1, Complete(0, key, true));
    var s3 := Apply(s2, EnqueueWithoutRateLimit(1, key));
    var s4 := Apply(s3, Get(1, key));
    var s5 := Apply(s4, Complete(1, key, false));
    assert Waiting(s5, key) && NumRequeues(s5.failures, key) == 0;
    assert e[1..][1..][1..][1..][1..] == rest;
    if ValidRun(s5, rest) {
      assert ValidRun(s4, e[1..][1..][1..][1..]) && Exec(s4, e[1..][1..][1..][1..]) == Exec(s5, rest);
      assert ValidRun(s3, e[1..][1..][1..]) && Exec(s3, e[1..][1..][1..]) == Exec(s5, rest);
      assert ValidRun(s2, e[1..][1..]) && Exec(s2, e[1..][1..]) == Exec(s5, rest);
      assert ValidRun(s1, e[1..]) && Exec(s1, e[1..]) == Exec(s5, rest);
    }
  }

  lemma RoundFailsOnce(key: Key, rest: seq<Event>)
    ensures FailingRuns(Round(key) + rest, key) == 1 + FailingRuns(rest, key)
  {
    var e0 := Round(key) + rest;
    var e1 := e0[1..];
    var e2 := e1[1..];
    var e3 := e2[1..];
    var e4 := e3[1..];
    assert e4[0] == Complete(1, key, false) && e4[1..] == rest;
    assert e3[0] == Get(1, key) && e2[0] == EnqueueWithoutRateLimit(1, key);
    assert e1[0] == Complete(0, key, true) && e0[0] == Get(0, key);
    assert FailingRuns(e4, key) == FailingRuns(rest, key);
    assert FailingRuns(e3, key) == FailingRuns(e4, key);
    assert FailingRuns(e2, key) == FailingRuns(e3, key);
  }

  /** A key that always fails in one queue is retried any number of times, and still waits, if it succeeds in
      another queue in between: success there resets the shared count. */
  lemma {:induction false} SharedLimiterRetriesForever(s: System, key: Key, n: nat)
    requires Waiting(s, key)
    ensures ValidRun(s, Rounds(key, n)) && FailingRuns(Rounds(key, n), key) == n
    ensures Waiting(Exec(s, Rounds(key, n)), key)
    decreases n
  {
    if n > 0 {
      RoundFailsOnce(key, Rounds(key, n - 1));
      OneRound(s, key, Rounds(key, n - 1));
      var t :| Waiting(t, key) && NumRequeues(t.failures, key) == 0 &&
               (ValidRun(t, Rounds(key, n - 1)) ==>
                  ValidRun(s, Round(key) + Rounds(key, n - 1)) &&
                  Exec(s, Round(key) + Rounds(key, n - 1)) == Exec(t, Rounds(key, n - 1)));
      SharedLimiterRetriesForever(t, key, n - 1);
    }
  }

  // ----- The queue object -----

  class RateLimiter {
    var failures: Failures

    constructor ()
      ensures failures == map[]
    {
      failures := map[];
    }
  }

  class Queue {
    const limiter: RateLimiter
    var pending: set<Key>
    var processing: set<Key>

    ghost function State(): QueueState
      reads this
    {
      QueueState(pending, processing)
    }

    constructor (limiter: RateLimiter)
      ensures this.limiter == limiter && State() == QueueState({}, {})
    {
      this.limiter := limiter;
      pending, processing := {}, {};
    }

    method Enqueue(key: Key)
      modifies this, limiter
      ensures limiter.failures == Counted(old(limiter.failures), key)
      ensures State() == Added(old(State()), key)
    {
      limiter.failures := limiter.failures[key := NumRequeues(limiter.failures, key) + 1];
      pending := pending + {key};
    }

    method EnqueueWithoutRateLimit(key: Key)
      modifies this
      ensures State() == Added(old(State()), key)
    {
      pending := pending + {key};
    }

    method Get(key: Key)
      requires key in pending && key !in processing
      modifies this
      ensures State() == QueueState(old(pending) - {key}, old(processing) + {key})
    {
      pending, processing := pending - {key}, processing + {key};
    }

    /** The handler has returned; `gaveUp` is the error that is reported when the retries are used up. */
    method HandleQueueItemObject(key: Key, failed: bool) returns (gaveUp: bool)
      requires key in processing
      modifies this, limiter
      ensures (limiter.failures, State()) == Completed(old(limiter.failures), old(State()), key, failed)
      ensures gaveUp <==> failed && NumRequeues(old(limiter.failures), key) >= MAX_RETRIES
    {
      gaveUp := false;
      if failed {
        if NumRequeues(limiter.failures, key) < MAX_RETRIES {
          Enqueue(key);
          processing := processing - {key};
          return;
        }
        gaveUp := true;
      }
      limiter.failures := limiter.failures - {key};
      processing := processing - {key};
    }

    /** A key whose handler always fails, left alone in its queue, runs 21 times less its count, and then leaves
        the queue with its count forgotten. */
    method RunFailing(key: Key) returns (runs: nat)
      requires key in pending && key !in processing
      modifies this, limiter
      ensures key !in pending && key !in processing && NumRequeues(limiter.failures, key) == 0
      ensures runs == if NumRequeues(old(limiter.failures), key) < MAX_RETRIES
                      then MAX_RETRIES + 1 - NumRequeues(old(limiter.failures), key) else 1
    {
      runs := 0;
      while key in pending
        invariant key !in processing
        invariant key in pending ==>
                    && runs == NumRequeues(limiter.failures, key) - NumRequeues(old(limiter.failures), key)
                    && (runs > 0 ==> NumRequeues(limiter.failures, key) <= MAX_RETRIES)
        invariant key !in pending ==>
                    && NumRequeues(limiter.failures, key) == 0
                    && runs == if NumRequeues(old(limiter.failures), key) < MAX_RETRIES
                               then MAX_RETRIES + 1 - NumRequeues(old(limiter.failures), key) else 1
        decreases key in pending, MAX_RETRIES - NumRequeues(limiter.failures, key)
      {
        Get(key);
        var gaveUp := HandleQueueItemObject(key, true);
        runs := runs + 1;
      }
    }
  }

  /** From a fresh start: 20 runs after Enqueue, which itself counts, and 21 after EnqueueWithoutRateLimit. */
  method AlwaysFailing(key: Key, rateLimited: bool) returns (runs: nat)
    ensures runs == if rateLimited then 20 else 21
  {
    var limiter := new RateLimiter();
    var q := new Queue(limiter);
    if rateLimited {
      q.Enqueue(key);
    } else {
      q.EnqueueWithoutRateLimit(key);
    }
    runs := q.RunFailing(key);
  }
}
