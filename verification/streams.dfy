/** The rendezvous of the exec and attach handlers with the streams that a client opens. */
module Streams {

  datatype StreamType = ErrorStream | Stdin | Stdout | Stderr | Resize | OtherStream(name: string)

  datatype Version = V1 | V2 | V3 | V4

  datatype Options = Options(stdin: bool, stdout: bool, stderr: bool, tty: bool)

  predicate SupportsTerminalResizing(v: Version) {
    v.V3? || v.V4?
  }

  /** The stream types that the protocol version has a case for; any other is reported and dropped. */
  predicate Accepts(v: Version, t: StreamType) {
    match t
    case OtherStream(_) => false
    case Resize => SupportsTerminalResizing(v)
    case _ => true
  }

  function With(s: set<StreamType>, wanted: bool, t: StreamType): (r: set<StreamType>)
    ensures t !in s ==> |r| == |s| + (if wanted then 1 else 0)
    ensures forall u :: u in r <==> u in s || (wanted && u == t)
  {
    if wanted then s + {t} else s
  }

  /** The streams that belong to a session: always the error stream. */
  function Requested(v: Version, o: Options): set<StreamType> {
    With(With(With(With({ErrorStream}, o.stdin, Stdin), o.stdout, Stdout), o.stderr, Stderr),
         o.tty && SupportsTerminalResizing(v), Resize)
  }

  /** The count that createHTTPStreamStreams builds up. */
  method ExpectedStreams(v: Version, o: Options) returns (n: nat)
    ensures n == |Requested(v, o)|
  {
    n := 1;
    if o.stdin {
      n := n + 1;
    }
    if o.stdout {
      n := n + 1;
    }
    if o.stderr {
      n := n + 1;
    }
    if o.tty && SupportsTerminalResizing(v) {
      n := n + 1;
    }
  }

  /** A stream arrives; the waiter of the i-th arrival reports that its reply frame was sent; the timer fires. */
  datatype Event = Arrive(stream: StreamType) | Replied(i: nat) | Expired

  datatype Outcome = Ready(streams: map<StreamType, nat>) | TimedOut | Blocked

  /** waitForStreams on the events still to come: `streams` are the context fields set so far, with the number of
      the arrival they hold. */
  function Wait(v: Version, expected: nat, script: seq<Event>, arrived: nat, streams: map<StreamType, nat>,
                received: nat): Outcome
    decreases |script|
  {
    if script == [] then Blocked
    else match script[0]
         case Arrive(t) =>
           Wait(v, expected, script[1..], arrived + 1,
                if Accepts(v, t) then streams[t := arrived] else streams, received)
         case Replied(_) =>
           if received + 1 == expected then Ready(streams)
           else Wait(v, expected, script[1..], arrived, streams, received + 1)
         case Expired => TimedOut
  }

  method WaitForStreams(v: Version, expected: nat, script: seq<Event>) returns (outcome: Outcome)
    ensures outcome == Wait(v, expected, script, 0, map[], 0)
  {
    var streams: map<StreamType, nat> := map[];
    var received, arrived := 0, 0;
    for k := 0 to |script|
      invariant Wait(v, expected, script, 0, map[], 0) == Wait(v, expected, script[k..], arrived, streams, received)
    {
      assert script[k..][1..] == script[k + 1..];
      match script[k] {
        case Arrive(t) =>
          if Accepts(v, t) {
            streams := streams[t := arrived];
          }
          arrived := arrived + 1;
        case Replied(_) =>
          received := received + 1;
          if received == expected {
            return Ready(streams);
          }
        case Expired =>
          return TimedOut;
      }
    }
    return Blocked;
  }

  /** Each accepted stream has one waiter, which reports once, after the arrival. */
  predicate Possible(v: Version, script: seq<Event>, arrived: seq<StreamType>, replied: set<nat>)
    decreases |script|
  {
    script == [] ||
    match script[0]
    case Arrive(t) => Possible(v, script[1..], arrived + [t], replied)
    case Replied(i) =>
      && i < |arrived| && Accepts(v, arrived[i]) && i !in replied
      && Possible(v, script[1..], arrived, replied + {i})
    case Expired => true
  }

  /** The client opens only what was requested, and each at most once. */
  predicate Honest(requested: set<StreamType>, script: seq<Event>, arrived: seq<StreamType>)
    decreases |script|
  {
    script == [] ||
    match script[0]
    case Arrive(t) => t in requested && t !in arrived && Honest(requested, script[1..], arrived + [t])
    case _ => Honest(requested, script[1..], arrived)
  }

  /** The types of the streams whose replies were counted. */
  function TypesOf(arrived: seq<StreamType>, replied: set<nat>): set<StreamType> {
    set i | i in replied && i < |arrived| :: arrived[i]
  }

  predicate AllDistinct(s: seq<StreamType>) {
    forall i, j | 0 <= i < j < |s| :: s[i] != s[j]
  }

  ghost predicate Counting(requested: set<StreamType>, arrived: seq<StreamType>, replied: set<nat>,
                           streams: map<StreamType, nat>, received: nat) {
    && AllDistinct(arrived)
    && (forall t :: t in arrived <==> t in streams)
    && streams.Keys <= requested
    && (forall i <- replied :: i < |arrived|)
    && received == |TypesOf(arrived, replied)|
  }

  lemma CountingArrival(requested: set<StreamType>, arrived: seq<StreamType>, replied: set<nat>,
                        streams: map<StreamType, nat>, received: nat, t: StreamType)
    requires Counting(requested, arrived, replied, streams, received) && t in requested && t !in arrived
    ensures Counting(requested, arrived + [t], replied, streams[t := |arrived|], received)
  {
    assert TypesOf(arrived + [t], replied) == TypesOf(arrived, replied);
  }

  lemma CountingReply(requested: set<StreamType>, arrived: seq<StreamType>, replied: set<nat>,
                      streams: map<StreamType, nat>, received: nat, i: nat)
    requires Counting(requested, arrived, replied, streams, received) && i < |arrived| && i !in replied
    ensures Counting(requested, arrived, replied + {i}, streams, received + 1)
    ensures TypesOf(arrived, replied + {i}) <= streams.Keys
  {
    NewType(arrived, replied, i);
    forall t | t in TypesOf(arrived, replied + {i})
      ensures t in streams
    {
      assert t in arrived;
    }
  }

  lemma NewType(arrived: seq<StreamType>, replied: set<nat>, i: nat)
    requires AllDistinct(arrived) && i < |arrived| && i !in replied
    ensures |TypesOf(arrived, replied + {i})| == |TypesOf(arrived, replied)| + 1
  {
    var types := TypesOf(arrived, replied);
    forall t | t in types
      ensures t != arrived[i]
    {
      var j :| j in replied && j < |arrived| && arrived[j] == t;
    }
    assert TypesOf(arrived, replied + {i}) == types + {arrived[i]};
  }

  lemma SubsetOfSameSize<T>(a: set<T>, b: set<T>)
    requires a <= b && |a| == |b|
    ensures a == b
  {
    if a != b {
      var x :| x in b && x !in a;
      SubsetSize(a, b - {x});
    }
  }

  lemma {:induction false} SubsetSize<T>(a: set<T>, b: set<T>)
    requires a <= b
    ensures |a| <= |b|
    decreases a
  {
    if a != {} {
      var x :| x in a;
      SubsetSize(a - {x}, b - {x});
    }
  }

  lemma {:induction false} RendezvousFrom(v: Version, requested: set<StreamType>, script: seq<Event>,
                                          arrived: seq<StreamType>, replied: set<nat>,
                                          streams: map<StreamType, nat>, received: nat)
    requires forall t <- requested :: Accepts(v, t)
    requires Counting(requested, arrived, replied, streams, received)
    requires Possible(v, script, arrived, replied) && Honest(requested, script, arrived)
    ensures var out := Wait(v, |requested|, script, |arrived|, streams, received);
            out.Ready? ==> out.streams.Keys == requested
    decreases |script|
  {
    if script != [] {
      match script[0]
      case Arrive(t) =>
        CountingArrival(requested, arrived, replied, streams, received, t);
        RendezvousFrom(v, requested, script[1..], arrived + [t], replied, streams[t := |arrived|], received);
      case Replied(i) =>
        CountingReply(requested, arrived, replied, streams, received, i);
        if received + 1 == |requested| {
          SubsetOfSameSize(TypesOf(arrived, replied + {i}), requested);
        } else {
          RendezvousFrom(v, requested, script[1..], arrived, replied + {i}, streams, received + 1);
        }
      case Expired =>
    }
  }

  /** For every protocol version and every interleaving of arrivals and replies, counting replies suffices: when
      the wait succeeds, exactly the requested streams are set, the error stream among them. */
  lemma Rendezvous(v: Version, o: Options, script: seq<Event>)
    requires Possible(v, script, [], {}) && Honest(Requested(v, o), script, [])
    ensures var out := Wait(v, |Requested(v, o)|, script, 0, map[], 0);
            out.Ready? ==>
              && out.streams.Keys == Requested(v, o)
              && ErrorStream in out.streams
              && (Stdin in out.streams <==> o.stdin)
              && (Stdout in out.streams <==> o.stdout)
              && (Stderr in out.streams <==> o.stderr)
              && (Resize in out.streams <==> o.tty && (v == V3 || v == V4))
  {
    assert TypesOf([], {}) == {};
    RendezvousFrom(v, Requested(v, o), script, [], {}, map[], 0);
  }

  /** `streams` holds the latest arrival of every accepted type that has arrived. */
  ghost predicate HoldsLatest(v: Version, arrived: seq<StreamType>, streams: map<StreamType, nat>) {
    && (forall t :: t in streams <==> t in arrived && Accepts(v, t))
    && (forall t <- streams :: LatestAt(arrived, streams[t], t))
  }

  ghost predicate LatestAt(arrived: seq<StreamType>, i: nat, t: StreamType) {
    i < |arrived| && arrived[i] == t && forall j | i < j < |arrived| :: arrived[j] != t
  }

  lemma LatestArrival(v: Version, arrived: seq<StreamType>, streams: map<StreamType, nat>, t: StreamType)
    requires HoldsLatest(v, arrived, streams)
    ensures HoldsLatest(v, arrived + [t], if Accepts(v, t) then streams[t := |arrived|] else streams)
  {
    var arrived', streams' := arrived + [t], if Accepts(v, t) then streams[t := |arrived|] else streams;
    assert forall u :: u in arrived' <==> u in arrived || u == t;
    forall u | u in streams'
      ensures LatestAt(arrived', streams'[u], u)
    {
      if u != t {
        LatestStays(arrived, streams[u], u, t);
      }
    }
  }

  lemma LatestStays(arrived: seq<StreamType>, i: nat, u: StreamType, t: StreamType)
    requires LatestAt(arrived, i, u) && u != t
    ensures LatestAt(arrived + [t], i, u)
  {
  }

  lemma {:induction false} LatestFrom(v: Version, expected: nat, script: seq<Event>, arrived: seq<StreamType>,
                                      streams: map<StreamType, nat>, received: nat) returns (n: nat)
    requires HoldsLatest(v, arrived, streams)
    ensures |arrived| <= n <= |arrived + Opens(script)|
    ensures var out := Wait(v, expected, script, |arrived|, streams, received);
            out.Ready? ==> HoldsLatest(v, (arrived + Opens(script))[..n], out.streams)
    decreases |script|
  {
    n := |arrived|;
    assert (arrived + Opens(script))[..n] == arrived;
    if script != [] {
      match script[0]
      case Arrive(t) =>
        LatestArrival(v, arrived, streams, t);
        assert arrived + ([t] + Opens(script[1..])) == (arrived + [t]) + Opens(script[1..]);
        n := LatestFrom(v, expected, script[1..], arrived + [t],
                        if Accepts(v, t) then streams[t := |arrived|] else streams, received);
      case Replied(_) =>
        if received + 1 != expected {
          n := LatestFrom(v, expected, script[1..], arrived, streams, received + 1);
        }
      case Expired =>
    }
  }

  /** What the context holds after a successful wait: for some number of arrivals, the latest one of every accepted
      type among them. */
  lemma StreamsAreLatestArrivals(v: Version, expected: nat, script: seq<Event>) returns (n: nat)
    ensures n <= |Opens(script)|
    ensures var out := Wait(v, expected, script, 0, map[], 0);
            out.Ready? ==> HoldsLatest(v, Opens(script)[..n], out.streams)
  {
    assert [] + Opens(script) == Opens(script);
    n := LatestFrom(v, expected, script, [], map[], 0);
  }

  /** The replies that are reported before the timer fires. */
  function Replies(script: seq<Event>): nat {
    if script == [] || script[0].Expired? then 0
    else (if script[0].Replied? then 1 else 0) + Replies(script[1..])
  }

  /** The wait succeeds exactly when enough replies are reported in time, whatever streams they belong to. */
  lemma {:induction false} ReadyIffEnoughReplies(v: Version, expected: nat, script: seq<Event>, arrived: nat,
                                                 streams: map<StreamType, nat>, received: nat)
    requires received < expected
    ensures Wait(v, expected, script, arrived, streams, received).Ready? <==> received + Replies(script) >= expected
    decreases |script|
  {
    if script != [] {
      match script[0]
      case Arrive(t) =>
        ReadyIffEnoughReplies(v, expected, script[1..], arrived + 1,
                              if Accepts(v, t) then streams[t := arrived] else streams, received);
      case Replied(_) =>
        if received + 1 < expected {
          ReadyIffEnoughReplies(v, expected, script[1..], arrived, streams, received + 1);
        }
      case Expired =>
    }
  }

  // ----- Exactly which clients defeat the counting -----

  /** The streams that the script opens, in order. */
  function Opens(script: seq<Event>): seq<StreamType> {
    if script == [] then []
    else if script[0].Arrive? then [script[0].stream] + Opens(script[1..])
    else Opens(script[1..])
  }

  /** The position of the first stream of type `t`, or the length. */
  function FirstOpen(opens: seq<StreamType>, t: StreamType): (n: nat)
    ensures n <= |opens| && (n < |opens| ==> opens[n] == t) && t !in opens[..n]
  {
    if opens == [] || opens[0] == t then 0 else 1 + FirstOpen(opens[1..], t)
  }

  /** The streams among the first `n` that the protocol version accepts, by number. */
  function AcceptedAmong(v: Version, opens: seq<StreamType>, n: nat): set<nat>
    requires n <= |opens|
  {
    set i | 0 <= i < n && Accepts(v, opens[i])
  }

  /** Some interleaving of the replies with the streams that the client opens makes the wait succeed without `t`. */
  ghost predicate CanSucceedWithout(v: Version, expected: nat, opens: seq<StreamType>, t: StreamType) {
    exists script :: SucceedsWithout(v, expected, opens, t, script)
  }

  ghost predicate SucceedsWithout(v: Version, expected: nat, opens: seq<StreamType>, t: StreamType,
                                  script: seq<Event>) {
    && Opens(script) == opens && Possible(v, script, [], {})
    && var out := Wait(v, expected, script, 0, map[], 0);
    out.Ready? && t !in out.streams
  }

  /** The wait holds exactly the accepted streams that have arrived, and has counted exactly the replies. */
  ghost predicate Tallied(v: Version, arrived: seq<StreamType>, replied: set<nat>, streams: map<StreamType, nat>,
                          received: nat) {
    && (forall t :: t in streams <==> t in arrived && Accepts(v, t))
    && replied <= AcceptedAmong(v, arrived, |arrived|) && received == |replied|
  }

  lemma TalliedArrival(v: Version, arrived: seq<StreamType>, replied: set<nat>, streams: map<StreamType, nat>,
                       received: nat, t: StreamType)
    requires Tallied(v, arrived, replied, streams, received)
    ensures Tallied(v, arrived + [t], replied, if Accepts(v, t) then streams[t := |arrived|] else streams, received)
  {
    assert forall u :: u in arrived + [t] <==> u in arrived || u == t;
    assert forall i | 0 <= i < |arrived| :: (arrived + [t])[i] == arrived[i];
  }

  /** A wait that succeeds without `t` has counted that many accepted streams before the first `t`. */
  lemma {:induction false} SuccessNeedsReplies(v: Version, expected: nat, opens: seq<StreamType>, t: StreamType,
                                               script: seq<Event>, arrived: seq<StreamType>, replied: set<nat>,
                                               streams: map<StreamType, nat>, received: nat)
    requires Accepts(v, t) && arrived + Opens(script) == opens
    requires Tallied(v, arrived, replied, streams, received) && Possible(v, script, arrived, replied)
    requires var out := Wait(v, expected, script, |arrived|, streams, received); out.Ready? && t !in out.streams
    ensures |AcceptedAmong(v, opens, FirstOpen(opens, t))| >= expected
    decreases |script|
  {
    match script[0]
    case Arrive(u) =>
      TalliedArrival(v, arrived, replied, streams, received, u);
      assert arrived + ([u] + Opens(script[1..])) == (arrived + [u]) + Opens(script[1..]);
      SuccessNeedsReplies(v, expected, opens, t, script[1..], arrived + [u], replied,
                          if Accepts(v, u) then streams[u := |arrived|] else streams, received);
    case Replied(i) =>
      if received + 1 == expected {
        RepliesComeFromBefore(v, opens, t, arrived, Opens(script), replied + {i});
      } else {
        SuccessNeedsReplies(v, expected, opens, t, script[1..], arrived, replied + {i}, streams, received + 1);
      }
  }

  lemma RepliesComeFromBefore(v: Version, opens: seq<StreamType>, t: StreamType, arrived: seq<StreamType>,
                              rest: seq<StreamType>, replied: set<nat>)
    requires opens == arrived + rest && t !in arrived && replied <= AcceptedAmong(v, arrived, |arrived|)
    ensures |AcceptedAmong(v, opens, FirstOpen(opens, t))| >= |replied|
  {
    ArrivedBefore(opens, arrived, rest, t);
    assert forall i | 0 <= i < |arrived| :: opens[i] == arrived[i];
    SubsetSize(replied, AcceptedAmong(v, opens, FirstOpen(opens, t)));
  }

  lemma ArrivedBefore(opens: seq<StreamType>, arrived: seq<StreamType>, rest: seq<StreamType>, t: StreamType)
    requires opens == arrived + rest && t !in arrived
    ensures |arrived| <= FirstOpen(opens, t) && opens[..|arrived|] == arrived
  {
    assert forall i | 0 <= i < |arrived| :: opens[i] == arrived[i] != t;
  }

  // The schedule that defeats the counting: arrivals up to the first `t`, then replies, then the other arrivals.

  function Arrivals(opens: seq<StreamType>): seq<Event> {
    if opens == [] then [] else [Arrive(opens[0])] + Arrivals(opens[1..])
  }

  lemma {:induction false} ArrivalsArePossible(v: Version, opens: seq<StreamType>, arrived: seq<StreamType>,
                                               replied: set<nat>)
    ensures Opens(Arrivals(opens)) == opens && Possible(v, Arrivals(opens), arrived, replied)
    decreases |opens|
  {
    if opens != [] {
      ArrivalsArePossible(v, opens[1..], arrived + [opens[0]], replied);
      assert Arrivals(opens)[1..] == Arrivals(opens[1..]);
    }
  }

  /** Replies to the accepted streams of `waiting`, followed by the arrivals of `rest`. */
  lemma {:induction false} RepliesSucceed(v: Version, expected: nat, rest: seq<StreamType>, arrived: seq<StreamType>,
                                          replied: set<nat>, waiting: set<nat>, streams: map<StreamType, nat>,
                                          received: nat) returns (script: seq<Event>)
    requires waiting <= AcceptedAmong(v, arrived, |arrived|) && replied !! waiting
    requires received < expected <= received + |waiting|
    ensures Opens(script) == rest && Possible(v, script, arrived, replied)
    ensures Wait(v, expected, script, |arrived|, streams, received) == Ready(streams)
    decreases |waiting|
  {
    var i :| i in waiting;
    var after: seq<Event>;
    if received + 1 == expected {
      after := Arrivals(rest);
      ArrivalsArePossible(v, rest, arrived, replied + {i});
    } else {
      after := RepliesSucceed(v, expected, rest, arrived, replied + {i}, waiting - {i}, streams, received + 1);
    }
    script := [Replied(i)] + after;
    assert script[1..] == after;
  }

  lemma {:induction false} ArrivalsFirst(v: Version, expected: nat, opens: seq<StreamType>, n: nat,
                                         arrived: seq<StreamType>, streams: map<StreamType, nat>)
    returns (script: seq<Event>)
    requires |arrived| <= n <= |opens| && arrived == opens[..|arrived|]
    requires Tallied(v, arrived, {}, streams, 0)
    requires 0 < expected <= |AcceptedAmong(v, opens, n)|
    ensures Opens(script) == opens[|arrived|..] && Possible(v, script, arrived, {})
    ensures var out := Wait(v, expected, script, |arrived|, streams, 0);
            out.Ready? && forall t <- out.streams :: t in opens[..n]
    decreases n - |arrived|
  {
    var k := |arrived|;
    if k == n {
      assert AcceptedAmong(v, arrived, k) == AcceptedAmong(v, opens, n);
      script := RepliesSucceed(v, expected, opens[n..], arrived, {}, AcceptedAmong(v, arrived, k), streams, 0);
    } else {
      var t := opens[k];
      TalliedArrival(v, arrived, {}, streams, 0, t);
      assert opens[..k + 1] == arrived + [t];
      var after := ArrivalsFirst(v, expected, opens, n, arrived + [t],
                                 if Accepts(v, t) then streams[t := k] else streams);
      script := [Arrive(t)] + after;
      assert script[1..] == after && opens[k..] == [t] + opens[k + 1..];
    }
  }

  /** For every sequence of streams that a client opens: the session can start without the requested stream `t` if
      and only if as many accepted streams as the session has are opened before the first `t`. */
  lemma CountingFailsIffEnoughBefore(v: Version, o: Options, opens: seq<StreamType>, t: StreamType)
    requires t in Requested(v, o)
    ensures CanSucceedWithout(v, |Requested(v, o)|, opens, t) <==>
            |AcceptedAmong(v, opens, FirstOpen(opens, t))| >= |Requested(v, o)|
  {
    var expected := |Requested(v, o)|;
    assert Tallied(v, [], {}, map[], 0);
    if CanSucceedWithout(v, expected, opens, t) {
      var script :| SucceedsWithout(v, expected, opens, t, script);
      assert [] + Opens(script) == opens;
      SuccessNeedsReplies(v, expected, opens, t, script, [], {}, map[], 0);
    }
    if |AcceptedAmong(v, opens, FirstOpen(opens, t))| >= expected {
      var script := ArrivalsFirst(v, expected, opens, FirstOpen(opens, t), [], map[]);
      assert SucceedsWithout(v, expected, opens, t, script);
    }
  }

  /** Exactly which clients are safe: whatever the interleaving, a session that starts has every requested stream,
      if and only if each of them is opened before too many others. */
  lemma SafeIffRequestedComeInTime(v: Version, o: Options, opens: seq<StreamType>)
    ensures (forall t <- Requested(v, o) :: !CanSucceedWithout(v, |Requested(v, o)|, opens, t)) <==>
            (forall t <- Requested(v, o) :: |AcceptedAmong(v, opens, FirstOpen(opens, t))| < |Requested(v, o)|)
  {
    forall t | t in Requested(v, o)
      ensures CanSucceedWithout(v, |Requested(v, o)|, opens, t) <==>
              |AcceptedAmong(v, opens, FirstOpen(opens, t))| >= |Requested(v, o)|
    {
      CountingFailsIffEnoughBefore(v, o, opens, t);
    }
  }

  lemma {:induction false} AllAccepted(v: Version, opens: seq<StreamType>, n: nat)
    requires n <= |opens| && forall i | 0 <= i < n :: Accepts(v, opens[i])
    ensures |AcceptedAmong(v, opens, n)| == n
  {
    if n > 0 {
      AllAccepted(v, opens, n - 1);
      assert AcceptedAmong(v, opens, n) == AcceptedAmong(v, opens, n - 1) + {n - 1};
    }
  }

  /** A client that opens `t` last is exposed as soon as it opens one accepted stream too many, whether it opens one
      of them twice or one that was not requested. */
  lemma ExtraStreamDefeatsCounting(v: Version, o: Options, opens: seq<StreamType>, t: StreamType)
    requires t in Requested(v, o) && t !in opens && forall i | 0 <= i < |opens| :: Accepts(v, opens[i])
    ensures CanSucceedWithout(v, |Requested(v, o)|, opens + [t], t) <==> |opens| >= |Requested(v, o)|
  {
    var all := opens + [t];
    CountingFailsIffEnoughBefore(v, o, all, t);
    ArrivedBefore(all, opens, [t], t);
    assert all[..|all|][|opens|] == t;
    AllAccepted(v, all, |opens|);
  }
}
