/** A versioned variable whose subscribers learn of new values through channels that are closed once. */
module Monitor {
  import opened Pods

  class Channel {
    var closed: bool

    constructor ()
      ensures !closed
    {
      closed := false;
    }

    /** Closing a closed channel panics, so it must be shown never to happen. */
    method Close()
      requires !closed
      modifies this
      ensures closed
    {
      closed := true;
    }
  }

  datatype Value<T> = Value(value: Option<T>, version: nat)

  class MonitorVariable<T> {
    var currentValue: Option<T>
    var currentVersion: nat
    var versionInvalidationChannel: Channel
    ghost var subscriptions: set<Subscription<T>>

    /** A subscription's channel is closed exactly when a newer value than the one it last read exists, and
        an open one is the channel that the next Set closes. */
    ghost predicate Tracks(s: Subscription<T>)
      reads this, s, s.channel
    {
      && s.monitor == this
      && s.lastVersionRead <= currentVersion
      && (s.channel.closed <==> s.lastVersionRead < currentVersion)
      && (!s.channel.closed ==> s.channel == versionInvalidationChannel)
    }

    ghost predicate Valid()
      reads this, versionInvalidationChannel, subscriptions, set s | s in subscriptions :: s.channel
    {
      && !versionInvalidationChannel.closed
      && (currentVersion == 0 <==> currentValue.None?)
      && forall s | s in subscriptions :: Tracks(s)
    }

    constructor ()
      ensures Valid() && currentVersion == 0 && subscriptions == {} && fresh(versionInvalidationChannel)
    {
      currentValue := None;
      currentVersion := 0;
      versionInvalidationChannel := new Channel();
      subscriptions := {};
    }

    method Set(newValue: T)
      requires Valid()
      modifies this, versionInvalidationChannel
      ensures Valid() && fresh(versionInvalidationChannel) && subscriptions == old(subscriptions)
      ensures currentVersion == old(currentVersion) + 1 && currentValue == Some(newValue)
      ensures old(versionInvalidationChannel).closed
      ensures forall s | s in subscriptions :: s.channel.closed
    {
      currentValue := Some(newValue);
      currentVersion := currentVersion + 1;
      versionInvalidationChannel.Close();
      versionInvalidationChannel := new Channel();
    }

    method Subscribe() returns (s: Subscription<T>)
      requires Valid()
      modifies this`subscriptions
      ensures Valid() && fresh(s) && subscriptions == old(subscriptions) + {s}
      ensures s.lastVersionRead == 0 && Tracks(s)
    {
      var channel := versionInvalidationChannel;
      if currentVersion > 0 {
        channel := new Channel();
        channel.Close();
      }
      s := new Subscription<T>(this, channel);
      subscriptions := subscriptions + {s};
    }
  }

  class Subscription<T> {
    const monitor: MonitorVariable<T>
    var lastVersionRead: nat
    var channel: Channel

    constructor (monitor: MonitorVariable<T>, channel: Channel)
      ensures this.monitor == monitor && this.channel == channel && lastVersionRead == 0
    {
      this.monitor := monitor;
      this.channel := channel;
      lastVersionRead := 0;
    }

    method NewValueReady() returns (c: Channel)
      requires monitor.Valid() && this in monitor.subscriptions
      ensures c == channel
      ensures c.closed <==> lastVersionRead < monitor.currentVersion
    {
      c := channel;
    }

    method Read() returns (v: Value<T>)
      requires monitor.Valid() && this in monitor.subscriptions
      modifies this
      ensures monitor.Valid()
      ensures v == Value(monitor.currentValue, monitor.currentVersion)
      ensures lastVersionRead == monitor.currentVersion && !channel.closed
    {
      v := Value(monitor.currentValue, monitor.currentVersion);
      lastVersionRead := monitor.currentVersion;
      channel := monitor.versionInvalidationChannel;
    }
  }

  // ----- Whole runs -----

  datatype Op<T> = SetTo(value: T) | Join | ReadBy(subscriber: nat)

  function Joins<T>(ops: seq<Op<T>>): nat {
    if ops == [] then 0 else Joins(ops[..|ops| - 1]) + (if ops[|ops| - 1].Join? then 1 else 0)
  }

  function Sets<T>(ops: seq<Op<T>>): nat {
    if ops == [] then 0 else Sets(ops[..|ops| - 1]) + (if ops[|ops| - 1].SetTo? then 1 else 0)
  }

  function LastSet<T>(ops: seq<Op<T>>): Option<T> {
    if ops == [] then None
    else if ops[|ops| - 1].SetTo? then Some(ops[|ops| - 1].value)
    else LastSet(ops[..|ops| - 1])
  }

  /** A value was set that subscriber `j` has not read: some Set follows its last read. */
  predicate Unread<T>(ops: seq<Op<T>>, j: nat) {
    ops != [] &&
    match ops[|ops| - 1]
    case SetTo(_) => true
    case ReadBy(i) => i != j && Unread(ops[..|ops| - 1], j)
    case Join => Unread(ops[..|ops| - 1], j)
  }

  /** Nobody reads before subscribing. */
  predicate Possible<T>(ops: seq<Op<T>>) {
    forall k | 0 <= k < |ops| && ops[k].ReadBy? :: ops[k].subscriber < Joins(ops[..k])
  }

  /** A subscriber that has not joined yet will find exactly the values set so far unread. */
  lemma {:induction false} UnreadBeforeJoining<T>(ops: seq<Op<T>>, j: nat)
    requires Possible(ops) && j >= Joins(ops)
    ensures Unread(ops, j) <==> Sets(ops) > 0
    decreases |ops|
  {
    if ops != [] {
      var prefix := ops[..|ops| - 1];
      PossiblePrefix(ops, |ops| - 1);
      UnreadBeforeJoining(prefix, j);
    }
  }

  /** The objects are in the state that the operations `ops` call for. */
  ghost predicate Agrees<T>(m: MonitorVariable<T>, subscribers: seq<Subscription<T>>, ops: seq<Op<T>>)
    reads m, m.versionInvalidationChannel, m.subscriptions, set s | s in m.subscriptions :: s.channel
  {
    && m.Valid()
    && m.currentVersion == Sets(ops) && m.currentValue == LastSet(ops)
    && |subscribers| == Joins(ops)
    && (forall j | 0 <= j < |subscribers| :: subscribers[j] in m.subscriptions)
    && (forall i, j | 0 <= i < j < |subscribers| :: subscribers[i] != subscribers[j])
    && (forall j | 0 <= j < |subscribers| :: subscribers[j].lastVersionRead < m.currentVersion <==> Unread(ops, j))
  }

  lemma LastOp<T>(ops: seq<Op<T>>, op: Op<T>)
    ensures (ops + [op])[..|ops|] == ops && (ops + [op])[|ops|] == op
  {
  }

  method StepSet<T>(m: MonitorVariable<T>, subscribers: seq<Subscription<T>>, ghost ops: seq<Op<T>>, v: T)
    requires Agrees(m, subscribers, ops)
    modifies m, m.versionInvalidationChannel
    ensures Agrees(m, subscribers, ops + [SetTo(v)])
    ensures fresh(m.versionInvalidationChannel) && m.subscriptions == old(m.subscriptions)
  {
    LastOp(ops, SetTo(v));
    m.Set(v);
  }

  method StepJoin<T>(m: MonitorVariable<T>, subscribers: seq<Subscription<T>>, ghost ops: seq<Op<T>>)
    returns (s: Subscription<T>)
    requires Agrees(m, subscribers, ops) && Possible(ops)
    modifies m`subscriptions
    ensures Agrees(m, subscribers + [s], ops + [Join])
    ensures fresh(s) && m.subscriptions == old(m.subscriptions) + {s}
  {
    LastOp(ops, Join);
    UnreadBeforeJoining(ops, |subscribers|);
    s := m.Subscribe();
  }

  method StepRead<T>(m: MonitorVariable<T>, subscribers: seq<Subscription<T>>, ghost ops: seq<Op<T>>, j: nat)
    returns (v: Value<T>)
    requires Agrees(m, subscribers, ops) && j < |subscribers|
    modifies subscribers[j]
    ensures Agrees(m, subscribers, ops + [ReadBy(j)])
    ensures v == Value(LastSet(ops), Sets(ops))
  {
    LastOp(ops, ReadBy(j));
    v := subscribers[j].Read();
  }

  lemma PossiblePrefix<T>(ops: seq<Op<T>>, k: nat)
    requires Possible(ops) && k <= |ops|
    ensures Possible(ops[..k])
  {
    forall i | 0 <= i < k && ops[..k][i].ReadBy?
      ensures ops[..k][i].subscriber < Joins(ops[..k][..i])
    {
      assert ops[..k][..i] == ops[..i];
    }
  }

  /** After every sequence of operations, by any number of subscribers: the version counts the Sets, every read
      returned the latest value set before it, and a subscriber's channel is closed exactly when a value was set
      that it has not read, so that no wakeup is lost and none is spurious. */
  method Run<T>(ops: seq<Op<T>>)
    returns (m: MonitorVariable<T>, subscribers: seq<Subscription<T>>, results: seq<Option<Value<T>>>)
    requires Possible(ops)
    ensures Agrees(m, subscribers, ops)
    ensures forall j | 0 <= j < |subscribers| :: subscribers[j].channel.closed <==> Unread(ops, j)
    ensures |results| == |ops|
    ensures forall k | 0 <= k < |ops| :: ops[k].ReadBy? ==> results[k] == Some(Value(LastSet(ops[..k]), Sets(ops[..k])))
  {
    m := new MonitorVariable<T>();
    subscribers, results := [], [];
    for k := 0 to |ops|
      invariant fresh(m) && fresh(m.versionInvalidationChannel)
      invariant forall s | s in m.subscriptions :: fresh(s)
      invariant Agrees(m, subscribers, ops[..k])
      invariant |results| == k
      invariant forall i | 0 <= i < k :: ops[i].ReadBy? ==> results[i] == Some(Value(LastSet(ops[..i]), Sets(ops[..i])))
    {
      assert ops[..k + 1] == ops[..k] + [ops[k]];
      match ops[k] {
        case SetTo(v) =>
          StepSet(m, subscribers, ops[..k], v);
          results := results + [None];
        case Join =>
          PossiblePrefix(ops, k);
          var s := StepJoin(m, subscribers, ops[..k]);
          subscribers := subscribers + [s];
          results := results + [None];
        case ReadBy(j) =>
          var v := StepRead(m, subscribers, ops[..k], j);
          results := results + [Some(v)];
      }
    }
    assert ops[..|ops|] == ops;
  }

  /** nodePingController.getResult on a context that is not cancelled: `None` while it would block, that is,
      exactly until the first ping result has been set; never an uninitialised value. */
  method GetResult<T>(monitor: MonitorVariable<T>) returns (result: Option<T>)
    requires monitor.Valid()
    modifies monitor`subscriptions
    ensures monitor.Valid()
    ensures result.Some? <==> monitor.currentVersion > 0
    ensures result == monitor.currentValue
  {
    var s := monitor.Subscribe();
    var ready := s.NewValueReady();
    if !ready.closed {
      return None;
    }
    var v := s.Read();
    return v.value;
  }
}
