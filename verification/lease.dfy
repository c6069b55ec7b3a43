/** The node lease on the API server: a versioned object that other clients may write between any two calls of
    the controller, whose requests and replies may get lost. */
module LeaseServer {
  import opened Pods

  datatype OwnerReference = OwnerReference(apiVersion: string, kind: string, name: string, uid: string)

  /** `version` is the resource version, 0 when unset; `rest` stands for the fields that nobody here names. */
  datatype Lease = Lease(name: string, namespace: string, version: nat, owners: seq<OwnerReference>,
                         holder: Option<string>, duration: Option<int>, renewTime: Option<int>,
                         rest: map<string, string>)

  /** A write of the controller that the server accepted. */
  datatype Write = Created(after: Lease) | Replaced(before: Lease, after: Lease)

  /** `foreign` is what the lease was when it last came from a create or from another client; `history` holds
      every version ever stored. */
  datatype Store = Store(current: Option<Lease>, revision: nat, foreign: Option<Lease>,
                         history: map<nat, Lease>, writes: seq<Write>)

  datatype External = Put(lease: Lease) | Delete

  datatype Fate = Delivered | RequestLost | ReplyLost

  /** What happens around one call: the writes of others just before it, the time it takes, whether it gets
      through, and how the server refuses an update of a lease that is gone. */
  datatype Weather = Weather(external: seq<External>, elapsed: nat, fate: Fate, goneIsConflict: bool)

  datatype Op = Get | Create(lease: Lease) | Update(lease: Lease)

  datatype Reply = Ok(lease: Lease) | NotFound | AlreadyExists | Conflict | Invalid | Transport | Canceled

  function StoreLease(s: Store, l: Lease): Store {
    var l' := l.(version := s.revision + 1);
    s.(current := Some(l'), revision := s.revision + 1, history := s.history[s.revision + 1 := l'])
  }

  function ApplyExternal(s: Store, e: External): Store {
    match e
    case Put(l) => var s' := StoreLease(s, l); s'.(foreign := s'.current)
    case Delete => s.(current := None, revision := s.revision + 1, foreign := None)
  }

  function ApplyExternals(s: Store, es: seq<External>): Store
    decreases |es|
  {
    if es == [] then s else ApplyExternals(ApplyExternal(s, es[0]), es[1..])
  }

  function Perform(s: Store, op: Op, goneIsConflict: bool): (Store, Reply) {
    match op
    case Get => (s, if s.current.None? then NotFound else Ok(s.current.value))
    case Create(l) =>
      if s.current.Some? then (s, AlreadyExists)
      else
        var s' := StoreLease(s, l);
        (s'.(foreign := s'.current, writes := s.writes + [Created(s'.current.value)]), Ok(s'.current.value))
    case Update(l) =>
      if s.current.None? then (s, if goneIsConflict then Conflict else NotFound)
      else if l.version == 0 then (s, Invalid)
      else if l.version != s.current.value.version then (s, Conflict)
      else
        var s' := StoreLease(s, l);
        (s'.(writes := s.writes + [Replaced(s.current.value, s'.current.value)]), Ok(s'.current.value))
  }

  function Call(s: Store, w: Weather, op: Op): (Store, Reply) {
    var s1 := ApplyExternals(s, w.external);
    if w.fate.RequestLost? then (s1, Transport)
    else
      var (s2, r) := Perform(s1, op, w.goneIsConflict);
      (s2, if w.fate.ReplyLost? then Transport else r)
  }

  // ----- What the server guarantees -----

  /** `l` differs from `h` at most in its version, its renew time, and owners where `h` had none. */
  predicate Renews(h: Lease, l: Lease) {
    && l == h.(version := l.version, renewTime := l.renewTime, owners := l.owners)
    && (l.owners == h.owners || h.owners == [])
  }

  predicate Harmless(w: Write) {
    w.Replaced? ==> Renews(w.before, w.after)
  }

  ghost predicate StoreOk(s: Store) {
    && (forall v <- s.history :: 0 < v <= s.revision && s.history[v].version == v)
    && (s.current.Some? ==>
          && s.current.value.version in s.history && s.history[s.current.value.version] == s.current.value
          && s.foreign.Some? && Renews(s.foreign.value, s.current.value))
    && (forall i | 0 <= i < |s.writes| :: Harmless(s.writes[i]))
  }

  /** The copy `l` comes from the version of the lease that it names. */
  ghost predicate Held(s: Store, l: Lease) {
    l.version in s.history && Renews(s.history[l.version], l)
  }

  ghost predicate Extends(s: Store, t: Store) {
    && s.revision <= t.revision
    && (forall v <- s.history :: v in t.history && t.history[v] == s.history[v])
    && |s.writes| <= |t.writes| && t.writes[..|s.writes|] == s.writes
  }

  lemma ExtendsTransitive(s: Store, t: Store, u: Store)
    requires Extends(s, t) && Extends(t, u)
    ensures Extends(s, u)
  {
  }

  lemma ExternalOk(s: Store, e: External)
    requires StoreOk(s)
    ensures StoreOk(ApplyExternal(s, e)) && Extends(s, ApplyExternal(s, e))
  {
  }

  lemma {:induction false} ExternalsOk(s: Store, es: seq<External>)
    requires StoreOk(s)
    ensures StoreOk(ApplyExternals(s, es)) && Extends(s, ApplyExternals(s, es))
    ensures ApplyExternals(s, es).writes == s.writes
    decreases |es|
  {
    if es != [] {
      ExternalOk(s, es[0]);
      ExternalsOk(ApplyExternal(s, es[0]), es[1..]);
    }
  }

  /** Optimistic locking: an accepted update of a held copy overwrites exactly the version it was copied from. */
  lemma PerformOk(s: Store, op: Op, gone: bool)
    requires StoreOk(s) && (op.Update? ==> Held(s, op.lease))
    ensures StoreOk(Perform(s, op, gone).0) && Extends(s, Perform(s, op, gone).0)
    ensures Perform(s, op, gone).1.Ok? ==>
              Perform(s, op, gone).0.current == Some(Perform(s, op, gone).1.lease)
  {
  }

  /** A reply to `op` other than an error. */
  ghost predicate Answers(s: Store, op: Op, t: Store, l: Lease) {
    && t.current == Some(l)
    && Held(t, l)
    && (!op.Get? ==>
          && l == op.lease.(version := l.version)
          && |t.writes| == |s.writes| + 1 && t.writes[|s.writes|].after == l)
  }

  lemma CallOk(s: Store, w: Weather, op: Op)
    requires StoreOk(s) && (op.Update? ==> Held(s, op.lease))
    ensures StoreOk(Call(s, w, op).0) && Extends(s, Call(s, w, op).0)
    ensures Call(s, w, op).1.Ok? ==> Answers(s, op, Call(s, w, op).0, Call(s, w, op).1.lease)
  {
    ExternalsOk(s, w.external);
    PerformOk(ApplyExternals(s, w.external), op, w.goneIsConflict);
  }

  // ----- Bounded interference -----

  /** Calls get through and nobody deletes the lease. */
  predicate Calm(w: Weather) {
    w.fate.Delivered? && forall i | 0 <= i < |w.external| :: w.external[i].Put?
  }

  /** How many writes of others are still to come. */
  function Puts(ws: seq<Weather>): nat {
    if ws == [] then 0 else |ws[0].external| + Puts(ws[1..])
  }

  lemma {:induction false} CalmExternals(s: Store, es: seq<External>)
    requires forall i | 0 <= i < |es| :: es[i].Put?
    ensures var t := ApplyExternals(s, es);
            && (s.current.Some? ==> t.current.Some?)
            && (es == [] ==> t == s)
            && (es != [] ==> t.current.Some? && t.current.value.version > s.revision)
            && t.revision >= s.revision
    decreases |es|
  {
    if es != [] {
      CalmExternals(ApplyExternal(s, es[0]), es[1..]);
    }
  }
}

/** The lease controller: a cached lease, up to five optimistic updates, re-fetch on conflict, create when absent. */
module LeaseController {
  import opened Pods
  import opened LeaseServer

  const MAX_UPDATE_RETRIES: nat := 5
  const MAX_BACKOFF: nat := 7000

  datatype Node = Node(name: string, uid: string)

  function NodeOwner(node: Node): OwnerReference {
    OwnerReference("v1", "Node", node.name, node.uid)
  }

  /** A lease as this controller creates it: named after the node, held by it and owned by it. */
  predicate LeaseOf(l: Lease, node: Node, duration: int) {
    && l.name == node.name && l.namespace == "kube-node-lease"
    && l.holder == Some(node.name) && l.duration == Some(duration)
    && l.owners == [OwnerReference("v1", "Node", node.name, node.uid)] && l.rest == map[]
  }

  /** newLease: a fresh lease, or a copy of `base`, renewed at `now` and never without an owner. */
  function NewLease(node: Node, base: Option<Lease>, duration: int, now: int): (l: Lease)
    ensures base.Some? ==> Renews(base.value, l) && l.version == base.value.version
    ensures base.Some? && base.value.owners == [] ==> l.owners == [OwnerReference("v1", "Node", node.name, node.uid)]
    ensures base.None? ==> LeaseOf(l, node, duration)
    ensures l.renewTime == Some(now) && l.owners != []
  {
    var l := if base.Some? then base.value
             else Lease(node.name, "kube-node-lease", 0, [], Some(node.name), Some(duration), None, map[]);
    l.(renewTime := Some(now), owners := if l.owners == [] then [NodeOwner(node)] else l.owners)
  }

  /** The connection to the API server. When `ahead` is used up the context is cancelled. */
  class Api {
    var store: Store
    var ahead: seq<Weather>
    var now: nat

    method Do(op: Op) returns (r: Reply)
      modifies this
      ensures old(ahead) == [] ==> r == Canceled && store == old(store) && ahead == [] && now == old(now)
      ensures old(ahead) != [] ==>
                && (store, r) == Call(old(store), old(ahead)[0], op)
                && ahead == old(ahead)[1..]
                && now == old(now) + old(ahead)[0].elapsed
    {
      if ahead == [] {
        return Canceled;
      }
      var w := ahead[0];
      var result := Call(store, w, op);
      store, r := result.0, result.1;
      now := now + w.elapsed;
      ahead := ahead[1..];
    }

    method Sleep(duration: nat)
      modifies this`now
      ensures now == old(now) + duration
    {
      now := now + duration;
    }
  }

  /** How many calls come before the first that meets a lost message or a deletion. */
  function HeadLength(ws: seq<Weather>): nat {
    if ws == [] || !Calm(ws[0]) then 0 else 1 + HeadLength(ws[1..])
  }

  /** How many writes of others fall into those calls. */
  function HeadPuts(ws: seq<Weather>): nat {
    if ws == [] || !Calm(ws[0]) then 0 else |ws[0].external| + HeadPuts(ws[1..])
  }

  /** The schedule starts with more calm calls than `calls` and two for every write of others among them. */
  predicate LongHead(ws: seq<Weather>, calls: nat) {
    HeadLength(ws) > calls + 2 * HeadPuts(ws)
  }

  /** `after` is what calm calls leave of `before`, no more than `calls` calls beyond two for every write of others. */
  ghost predicate Within(before: seq<Weather>, after: seq<Weather>, calls: nat) {
    && |after| <= |before|
    && Puts(after) <= Puts(before)
    && |before| - |after| <= calls + 2 * (Puts(before) - Puts(after))
    && HeadLength(before) - HeadLength(after) == |before| - |after|
    && HeadPuts(before) - HeadPuts(after) == Puts(before) - Puts(after)
  }

  /** All that a call of the API may depend on and change. */
  datatype Moment = Moment(store: Store, ahead: seq<Weather>, now: nat)

  ghost predicate Later(a: Moment, b: Moment) {
    Extends(a.store, b.store) && |b.ahead| <= |a.ahead| && a.now <= b.now
  }

  lemma LaterTransitive(a: Moment, b: Moment, c: Moment)
    requires Later(a, b) && Later(b, c)
    ensures Later(a, c)
  {
  }

  /** Only calm calls were made between `a` and `b`: no message was lost and nobody deleted the lease. */
  ghost predicate Undisturbed(a: Moment, b: Moment) {
    |a.ahead| - |b.ahead| <= HeadLength(a.ahead)
  }

  /** What was taken from the schedule: only calm calls if it started with more than `limit`, and then no more than
      `calls`. */
  ghost predicate Spent(a: Moment, b: Moment, calls: nat, limit: nat) {
    && (LongHead(a.ahead, limit) ==> Undisturbed(a, b))
    && (Undisturbed(a, b) ==> Within(a.ahead, b.ahead, calls))
  }

  lemma SpendMore(a: Moment, b: Moment, c: Moment, spent: nat, calls: nat, needed: nat, limit: nat)
    requires Spent(a, b, spent, limit) && Spent(b, c, calls, needed)
    requires |c.ahead| <= |b.ahead| <= |a.ahead| && spent + needed <= limit
    ensures Spent(a, c, spent + calls, limit)
  {
  }

  /** The server accepted one write of the controller, or none. */
  ghost predicate WritesOnce(a: Moment, b: Moment, wrote: bool) {
    |b.store.writes| == |a.store.writes| + (if wrote then 1 else 0)
  }

  /** The copy at hand is still the current version. */
  ghost predicate Fresh(s: Store, base: Option<Lease>) {
    base.Some? && Held(s, base.value) && s.current.Some? && s.current.value.version == base.value.version
  }

  /** There is a copy at hand, unless the context is cancelled. */
  ghost predicate AtHand(m: Moment, base: Option<Lease>) {
    if base.Some? then Held(m.store, base.value) else m.ahead == []
  }

  /** What one turn of the retry loop does: undisturbed, it renews the lease or is cancelled, or it
      was not fresh, or the copy at hand is fresh again and the others have used up a write. */
  ghost predicate Turn(a: Moment, base: Option<Lease>, b: Moment, done: bool, ok: bool, next: Option<Lease>) {
    var current := Fresh(a.store, base);
    && Later(a, b) && AtHand(b, next)
    && (done && !ok <==> a.ahead == []) && (a.ahead == [] ==> b == a)
    && (current && Undisturbed(a, b) ==> WritesOnce(a, b, ok))
    && Spent(a, b, if !current then 3 else if ok then 1 else 0, if current then 1 else 3)
    && (current && Undisturbed(a, b) && !ok && b.ahead != [] ==>
          Fresh(b.store, next) && Puts(b.ahead) < Puts(a.ahead))
    && (Jammed(a.ahead, 2) && base.Some? ==>
          !done && next.Some? && b.ahead == a.ahead[2..] && b.store.writes == a.store.writes)
  }

  /** Where the retry loop that started at `m` with `start` is after `i` turns. */
  ghost predicate Trying(m: Moment, start: Option<Lease>, a: Moment, i: nat, base: Option<Lease>)
    requires i <= MAX_UPDATE_RETRIES
  {
    var current := Fresh(m.store, start);
    && Later(m, a) && AtHand(a, base)
    && Spent(m, a, if current then 0 else 3 * i, if current then 1 else 15)
    && (current && Undisturbed(m, a) ==> WritesOnce(m, a, false))
    && (current && Undisturbed(m, a) && a.ahead != [] ==> Fresh(a.store, base) && i <= Puts(m.ahead) - Puts(a.ahead))
    && (Jammed(m.ahead, 2 * MAX_UPDATE_RETRIES) ==>
          && base.Some? && Jammed(a.ahead, 2 * (MAX_UPDATE_RETRIES - i)) && a.store.writes == m.store.writes)
  }

  /** What the retry loop achieves: from a fresh copy, undisturbed and not cancelled, it fails
      only if the others have used up five writes; and if they write before every update, then it does fail. */
  ghost predicate Retried(m: Moment, start: Option<Lease>, b: Moment, ok: bool) {
    var current := Fresh(m.store, start);
    && Later(m, b)
    && Spent(m, b, if current then 1 else 15, if current then 1 else 15)
    && (current && Undisturbed(m, b) ==> WritesOnce(m, b, ok))
    && (current && Undisturbed(m, b) && !ok && b.ahead != [] ==>
          Puts(m.ahead) - Puts(b.ahead) >= 5)
    && (Jammed(m.ahead, 10) ==> !ok && b.store.writes == m.store.writes)
  }

  lemma TryingAtStart(m: Moment, start: Option<Lease>)
    requires AtHand(m, start) && start.Some?
    ensures Trying(m, start, m, 0, start)
  {
  }

  lemma TurnSpends(m: Moment, start: Option<Lease>, a: Moment, i: nat, base: Option<Lease>,
                   b: Moment, done: bool, ok: bool, next: Option<Lease>)
    requires i < MAX_UPDATE_RETRIES && Trying(m, start, a, i, base) && Turn(a, base, b, done, ok, next)
    ensures var current := Fresh(m.store, start);
            Spent(m, b, if !current then 3 * (i + 1) else if ok then 1 else 0, if current then 1 else 15)
  {
    if !Fresh(m.store, start) {
      SpendMore(m, a, b, 3 * i, if !Fresh(a.store, base) then 3 else if ok then 1 else 0,
                if Fresh(a.store, base) then 1 else 3, 15);
    }
  }

  lemma TurnKeeps(m: Moment, start: Option<Lease>, a: Moment, i: nat, base: Option<Lease>,
                  b: Moment, ok: bool, next: Option<Lease>)
    requires i < MAX_UPDATE_RETRIES && Trying(m, start, a, i, base) && Turn(a, base, b, false, ok, next) && !ok
    ensures Trying(m, start, b, i + 1, next)
  {
    LaterTransitive(m, a, b);
    TurnSpends(m, start, a, i, base, b, false, ok, next);
    JamGoesOn(a.ahead, 2 * (MAX_UPDATE_RETRIES - i));
  }

  lemma TurnEnds(m: Moment, start: Option<Lease>, a: Moment, i: nat, base: Option<Lease>,
                 b: Moment, ok: bool, next: Option<Lease>)
    requires i < MAX_UPDATE_RETRIES && Trying(m, start, a, i, base) && Turn(a, base, b, true, ok, next)
    ensures Retried(m, start, b, ok)
  {
    LaterTransitive(m, a, b);
    TurnSpends(m, start, a, i, base, b, true, ok, next);
    JamGoesOn(a.ahead, 2 * (MAX_UPDATE_RETRIES - i));
  }

  lemma TurnsExhausted(m: Moment, start: Option<Lease>, a: Moment, base: Option<Lease>)
    requires Trying(m, start, a, MAX_UPDATE_RETRIES, base)
    ensures Retried(m, start, a, false)
  {
  }

  /** What a reply can be when others only write the lease and every call gets through. */
  ghost predicate CalmReply(s: Store, ahead: seq<Weather>, op: Op, t: Store, rest: seq<Weather>, r: Reply) {
    && ahead != [] && Within(ahead, rest, 1)
    && (t.writes == s.writes || (r.Ok? && !op.Get?))
    && (s.current.Some? ==> t.current.Some?)
    && (op.Get? ==> r.Ok? || (r.NotFound? && t.current.None?))
    && (op.Create? ==> r.Ok? || (r.AlreadyExists? && t.current.Some?))
    && (op.Create? && s.current.None? && r.AlreadyExists? ==> Puts(rest) < Puts(ahead))
    && (op.Update? && op.lease.version > 0 && s.current.Some? && s.current.value.version == op.lease.version ==>
          r.Ok? || (r.Conflict? && t.current.Some? && Puts(rest) < Puts(ahead)))
    && (op.Update? && ahead[0].external != [] && 0 < op.lease.version <= s.revision ==>
          r.Conflict? && t.current.Some?)
  }

  lemma CalmCall(s: Store, ahead: seq<Weather>, op: Op)
    requires ahead != [] && Calm(ahead[0]) && StoreOk(s)
    ensures CalmReply(s, ahead, op, Call(s, ahead[0], op).0, ahead[1..], Call(s, ahead[0], op).1)
  {
    CalmExternals(s, ahead[0].external);
    ExternalsOk(s, ahead[0].external);
  }

  /** The reply `r` to `op`, which the context's cancellation may have prevented. */
  ghost predicate Replied(a: Moment, op: Op, b: Moment, r: Reply) {
    && Later(a, b)
    && (r.Canceled? <==> a.ahead == [])
    && (if r.Canceled? then b == a else b.ahead == a.ahead[1..] && (b.store, r) == Call(a.store, a.ahead[0], op))
    && (r.Ok? ==> Answers(a.store, op, b.store, r.lease))
    && (!r.Canceled? && Calm(a.ahead[0]) ==> CalmReply(a.store, a.ahead, op, b.store, b.ahead, r))
  }

  /** What getting hold of the lease yields: the current lease, created or fetched, or nothing. Undisturbed it takes two
      calls, and coming back empty-handed has cost the others a write; one call is enough while there is a lease. */
  ghost predicate Ensured(a: Moment, b: Moment, lease: Option<Lease>, created: bool) {
    && Later(a, b)
    && (lease.Some? ==> a.ahead != [] && lease == b.store.current && Held(b.store, lease.value))
    && (created ==> lease.Some? && RenewedSince(a.store, a.now, b.store, lease.value))
    && (a.ahead != [] ==> |b.ahead| < |a.ahead|)
    && Spent(a, b, if lease.None? && b.ahead != [] then 0 else 2, 2)
    && (Undisturbed(a, b) ==> WritesOnce(a, b, created))
    && (a.ahead != [] && Calm(a.ahead[0]) && a.store.current.Some? ==>
          && lease.Some? && !created
          && b.ahead == a.ahead[1..] && b.store.writes == a.store.writes)
  }

  lemma EnsuredByGet(a: Moment, b: Moment, r: Reply)
    requires StoreOk(a.store) && Replied(a, Get, b, r) && !r.NotFound?
    ensures Ensured(a, b, if r.Ok? then Some(r.lease) else None, false)
  {
  }

  lemma EnsuredByCreate(a: Moment, b: Moment, l: Lease, c: Moment, r: Reply)
    requires StoreOk(a.store) && StoreOk(b.store) && Replied(a, Get, b, NotFound) && Replied(b, Create(l), c, r)
    requires l.renewTime == Some(b.now)
    ensures Ensured(a, c, if r.Ok? then Some(r.lease) else None, r.Ok?)
  {
    LaterTransitive(a, b, c);
  }

  lemma EnsuredAgain(m: Moment, a: Moment, b: Moment, lease: Option<Lease>, created: bool)
    requires Ensured(m, a, None, false) && a.ahead != [] && Ensured(a, b, lease, created)
    ensures Ensured(m, b, lease, created)
  {
    LaterTransitive(m, a, b);
    SpendMore(m, a, b, 0, if lease.None? && b.ahead != [] then 0 else 2, 2, 2);
  }

  lemma EnsuredAfterSleep(m: Moment, a: Moment, now: nat)
    requires Ensured(m, a, None, false) && a.now <= now
    ensures Ensured(m, a.(now := now), None, false)
  {
  }

  lemma TurnWithoutConflict(a: Moment, base: Option<Lease>, l: Lease, b: Moment, r: Reply)
    requires StoreOk(a.store) && AtHand(a, base) && AtHand(b, base) && (base.Some? ==> l.version == base.value.version)
    requires Replied(a, Update(l), b, r) && !r.Conflict?
    ensures Turn(a, base, b, r.Ok? || r.Canceled?, r.Ok?, base)
  {
  }

  lemma TurnWithConflict(a: Moment, base: Option<Lease>, l: Lease, b: Moment, c: Moment,
                         next: Option<Lease>, created: bool)
    requires StoreOk(a.store) && AtHand(a, base) && (base.Some? ==> l.version == base.value.version)
    requires Replied(a, Update(l), b, Conflict) && Ensured(b, c, next, created) && AtHand(c, next)
    ensures Turn(a, base, c, false, false, next)
  {
    LaterTransitive(a, b, c);
    ConflictSpends(a, base, l, b, c, next, created);
  }

  lemma ConflictSpends(a: Moment, base: Option<Lease>, l: Lease, b: Moment, c: Moment,
                       next: Option<Lease>, created: bool)
    requires StoreOk(a.store) && AtHand(a, base) && (base.Some? ==> l.version == base.value.version)
    requires Replied(a, Update(l), b, Conflict) && Ensured(b, c, next, created)
    ensures if Fresh(a.store, base) then Spent(a, c, 0, 1) else Spent(a, c, 3, 3)
  {
    if !Fresh(a.store, base) {
      assert Spent(a, b, 1, 0);
      SpendMore(a, b, c, 1, 2, 2, 3);
    }
  }

  /** The next `n` calls get through, and others write the lease just before every second of them, starting with
      the next. */
  ghost predicate Jammed(ahead: seq<Weather>, n: nat) {
    && n <= |ahead|
    && forall i | 0 <= i < n :: Calm(ahead[i]) && (i % 2 == 0 ==> ahead[i].external != [])
  }

  class Controller {
    const api: Api
    const leaseDurationSeconds: int
    var latestLease: Option<Lease>

    constructor (api: Api, leaseDurationSeconds: int)
      ensures this.api == api && latestLease == None
    {
      this.api := api;
      this.leaseDurationSeconds := leaseDurationSeconds;
      latestLease := None;
    }

    /** Every lease that the controller keeps comes from the server's history. */
    ghost predicate Valid()
      reads this, api
    {
      StoreOk(api.store) && (latestLease.Some? ==> Held(api.store, latestLease.value))
    }

    ghost function Now(): Moment
      reads api
    {
      Moment(api.store, api.ahead, api.now)
    }

    /** One call of the API, with a lease that the controller holds unless the context is cancelled. */
    method Request(op: Op) returns (r: Reply)
      requires Valid() && (op.Update? ==> Held(api.store, op.lease) || api.ahead == [])
      modifies api
      ensures Valid() && Replied(old(Now()), op, Now(), r)
    {
      ghost var s, ahead := api.store, api.ahead;
      r := api.Do(op);
      if ahead != [] {
        CallOk(s, ahead[0], op);
        NeverCanceled(s, ahead[0], op);
        if Calm(ahead[0]) {
          CalmCall(s, ahead, op);
        }
      }
    }

    method EnsureLease(node: Node) returns (lease: Option<Lease>, created: bool, failed: bool)
      requires Valid()
      modifies api
      ensures Valid() && Ensured(old(Now()), Now(), lease, created)
      ensures failed <==> lease.None?
      ensures created ==> LeaseOf(lease.value, node, leaseDurationSeconds)
    {
      lease, created, failed := None, false, false;
      ghost var a := Now();
      var got := Request(Get);
      ghost var b := Now();
      if got.NotFound? {
        // The new lease always has an owner, so the code's guard for a lease without one never applies.
        var l := NewLease(node, None, leaseDurationSeconds, api.now);
        var r := Request(Create(l));
        EnsuredByCreate(a, b, l, Now(), r);
        if r.Ok? {
          lease, created := Some(r.lease), true;
        } else {
          failed := true;
        }
      } else {
        EnsuredByGet(a, b, got);
        if got.Ok? {
          lease := Some(got.lease);
        } else {
          failed := true;
        }
      }
    }

    /** `None` only when the context is cancelled. */
    method BackoffEnsureLease(node: Node) returns (lease: Option<Lease>, created: bool)
      requires Valid()
      modifies api
      ensures Valid() && Ensured(old(Now()), Now(), lease, created)
      ensures lease.None? ==> api.ahead == []
      ensures created ==> LeaseOf(lease.value, node, leaseDurationSeconds)
    {
      var sleep: nat := 100;
      var failed := true;
      ghost var m, untried := Now(), true;
      lease, created := None, false;
      while failed
        invariant Valid() && (failed <==> lease.None?) && (failed ==> !created && sleep <= MAX_BACKOFF)
        invariant created ==> lease.Some? && LeaseOf(lease.value, node, leaseDurationSeconds)
        invariant if untried then failed && Now() == m
                  else Ensured(m, Now(), lease, created) && (failed ==> api.ahead != [])
        decreases |api.ahead|, failed
      {
        ghost var a := Now();
        lease, created, failed := EnsureLease(node);
        if !untried {
          EnsuredAgain(m, a, Now(), lease, created);
        }
        untried := false;
        if failed {
          sleep := if 2 * sleep < MAX_BACKOFF then 2 * sleep else MAX_BACKOFF;
          // The clock sleeps, and then a timer of the same length is awaited.
          ghost var b := Now();
          api.Sleep(sleep);
          EnsuredAfterSleep(m, b, api.now);
          if api.ahead == [] {
            return None, false;
          }
          api.Sleep(sleep);
          EnsuredAfterSleep(m, b, api.now);
        }
      }
    }

    /** One turn of the retry loop: try to update, and fetch the lease again on a conflict. */
    method TryUpdate(node: Node, base: Option<Lease>) returns (done: bool, ok: bool, next: Option<Lease>)
      requires Valid() && AtHand(Now(), base)
      modifies this`latestLease, api
      ensures Valid()
      ensures !ok ==> latestLease == old(latestLease)
      ensures ok ==>
                done && latestLease.Some? && RenewedSince(old(api.store), old(api.now), api.store, latestLease.value)
      ensures Turn(old(Now()), base, Now(), done, ok, next)
      // The lease is fetched again only after a conflict.
      ensures old(api.ahead) != [] ==>
                var l := NewLease(node, base, leaseDurationSeconds, old(api.now));
                var reply := Call(old(api.store), old(api.ahead)[0], Update(l)).1;
                !reply.Conflict? ==> next == base && api.ahead == old(api.ahead)[1..]
    {
      next := base;
      ghost var a := Now();
      var renewed := NewLease(node, base, leaseDurationSeconds, api.now);
      var r := Request(Update(renewed));
      if r.Ok? {
        latestLease := Some(r.lease);
        TurnWithoutConflict(a, base, renewed, Now(), r);
        return true, true, next;
      }
      if r.Canceled? {
        TurnWithoutConflict(a, base, renewed, Now(), r);
        return true, false, next;
      }
      if r.Conflict? {
        ghost var b := Now();
        var created;
        next, created := BackoffEnsureLease(node);
        TurnWithConflict(a, base, renewed, b, Now(), next, created);
      } else {
        TurnWithoutConflict(a, base, renewed, Now(), r);
      }
      return false, false, next;
    }

    method RetryUpdateLease(node: Node, start: Lease) returns (ok: bool)
      requires Valid() && Held(api.store, start)
      modifies this`latestLease, api
      ensures Valid()
      ensures !ok ==> latestLease == old(latestLease)
      ensures ok ==> latestLease.Some? && RenewedSince(old(api.store), old(api.now), api.store, latestLease.value)
      ensures Retried(old(Now()), Some(start), Now(), ok)
    {
      var base := Some(start);
      ghost var m := Now();
      TryingAtStart(m, base);
      for i := 0 to MAX_UPDATE_RETRIES
        invariant Valid() && latestLease == old(latestLease)
        invariant Trying(m, Some(start), Now(), i, base)
      {
        ghost var a := Now();
        var done, updated, next := TryUpdate(node, base);
        if done {
          TurnEnds(m, Some(start), a, i, base, Now(), updated, next);
          return updated;
        }
        TurnKeeps(m, Some(start), a, i, base, Now(), updated, next);
        base := next;
      }
      TurnsExhausted(m, Some(start), Now(), base);
      return false;
    }

    /** The second part of a heartbeat: fetch or create the lease, and renew it if it was fetched. */
    method EnsureAndUpdate(node: Node)
      requires Valid()
      modifies this`latestLease, api
      ensures Valid() && Later(old(Now()), Now()) && Spent(old(Now()), Now(), 3, 3)
      ensures Undisturbed(old(Now()), Now()) ==> |api.store.writes| <= |old(api.store).writes| + 1
      ensures latestLease.None? ==> api.ahead == []
      ensures Undisturbed(old(Now()), Now()) && api.ahead != []
                && Puts(old(api.ahead)) - Puts(api.ahead) <= 4
              ==> latestLease.Some? && RenewedSince(old(api.store), old(api.now), api.store, latestLease.value)
      ensures old(api.store).current.Some? && old(api.ahead) != [] && Calm(old(api.ahead)[0])
                && Jammed(old(api.ahead)[1..], 10)
              ==> api.store.writes == old(api.store).writes
    {
      var lease, created := BackoffEnsureLease(node);
      latestLease := lease;
      if !created && lease.Some? {
        var ok := RetryUpdateLease(node, lease.value);
      }
    }

    /** One heartbeat. Whatever others do and whatever gets lost, every write keeps all that it does not renew
        (`Valid`). If the schedule starts with enough calls that get through, among them at most four writes of
        others, and with no deletion, then the heartbeat renews the lease, whether the cached lease is absent,
        current, stale or deleted, and whatever comes later; five well-placed writes can prevent that. */
    method Sync(pingClean: bool, serverNode: Option<Node>)
      requires Valid()
      modifies this`latestLease, api
      ensures Valid() && Later(old(Now()), Now()) && Spent(old(Now()), Now(), 18, 18)
      ensures Undisturbed(old(Now()), Now()) && (old(latestLease).None? || Fresh(old(api.store), old(latestLease))) ==>
                |api.store.writes| <= |old(api.store).writes| + 1
      ensures pingClean && serverNode.Some? && latestLease.None? ==> api.ahead == []
      ensures !pingClean || serverNode.None? ==>
                api.store == old(api.store) && api.ahead == old(api.ahead) && latestLease == old(latestLease)
      ensures pingClean && serverNode.Some? && Undisturbed(old(Now()), Now()) && api.ahead != []
                && Puts(old(api.ahead)) - Puts(api.ahead) <= 4
              ==> latestLease.Some? && RenewedSince(old(api.store), old(api.now), api.store, latestLease.value)
      ensures pingClean && serverNode.Some? && LongHead(old(api.ahead), 18)
                && HeadPuts(old(api.ahead)) <= 4
              ==> latestLease.Some? && RenewedSince(old(api.store), old(api.now), api.store, latestLease.value)
      ensures old(latestLease).None? && old(api.store).current.Some? && old(api.ahead) != [] && Calm(old(api.ahead)[0])
                && Jammed(old(api.ahead)[1..], 10)
              ==> api.store.writes == old(api.store).writes
    {
      if !pingClean || serverNode.None? {
        return;
      }
      var node := serverNode.value;
      if latestLease.Some? {
        var renewed := NewLease(node, latestLease, leaseDurationSeconds, api.now);
        var ok := RetryUpdateLease(node, renewed);
        if ok {
          return;
        }
      }
      EnsureAndUpdate(node);
    }

    /** Any number of heartbeats; `moments` are the states before, between and after them. Every write keeps all that
        it does not renew, and every heartbeat with a clean ping that starts with a long calm head renews the lease. */
    method Run(pings: seq<bool>, serverNode: Option<Node>) returns (ghost moments: seq<Moment>)
      requires Valid()
      modifies this`latestLease, api
      ensures Valid() && Extends(old(api.store), api.store)
      ensures |moments| == |pings| + 1 && moments[0] == old(Now()) && moments[|pings|] == Now()
      ensures forall i | 0 <= i < |pings| :: Beats(moments[i], moments[i + 1], pings[i] && serverNode.Some?)
      ensures serverNode.Some? && LongHead(old(api.ahead), 18 * |pings|)
                && HeadPuts(old(api.ahead)) <= 4
              ==> |api.store.writes| >= |old(api.store.writes)| + CleanPings(pings)
    {
      moments := [Now()];
      for i := 0 to |pings|
        invariant Valid() && Extends(old(api.store), api.store)
        invariant |moments| == i + 1 && moments[0] == old(Now()) && moments[i] == Now()
        invariant forall j | 0 <= j < i :: Beats(moments[j], moments[j + 1], pings[j] && serverNode.Some?)
        invariant LongHead(old(api.ahead), 18 * |pings|) ==>
                    && LongHead(api.ahead, 18 * (|pings| - i)) && HeadPuts(api.ahead) <= HeadPuts(old(api.ahead))
        invariant serverNode.Some? && LongHead(old(api.ahead), 18 * |pings|)
                    && HeadPuts(old(api.ahead)) <= 4
                  ==> |api.store.writes| >= |old(api.store.writes)| + CleanPings(pings[..i])
      {
        assert pings[..i + 1][..i] == pings[..i];
        Sync(pings[i], serverNode);
        moments := moments + [Now()];
      }
      assert pings[..|pings|] == pings;
    }
  }

  /** One heartbeat leads from `a` to `b`: a long calm head bounds the calls that it takes, and if few writes of others
      fall into it and the ping is clean, the lease is renewed. */
  ghost predicate Beats(a: Moment, b: Moment, clean: bool) {
    && Extends(a.store, b.store) && a.now <= b.now
    && (!clean ==> b.store == a.store && b.ahead == a.ahead)
    && (LongHead(a.ahead, 18) ==>
          && Within(a.ahead, b.ahead, 18)
          && (clean && HeadPuts(a.ahead) <= 4 ==> Renewed(a.store, a.now, b.store)))
  }

  ghost predicate Renewed(s: Store, start: nat, t: Store) {
    |t.writes| > 0 && RenewedSince(s, start, t, t.writes[|t.writes| - 1].after)
  }

  function CleanPings(pings: seq<bool>): nat {
    if pings == [] then 0 else CleanPings(pings[..|pings| - 1]) + (if pings[|pings| - 1] then 1 else 0)
  }

  lemma JamGoesOn(ahead: seq<Weather>, n: nat)
    requires n >= 2
    ensures Jammed(ahead, n) ==> Jammed(ahead, 2) && Jammed(ahead[2..], n - 2)
  {
    if Jammed(ahead, n) {
      var rest := ahead[2..];
      forall i | 0 <= i < n - 2
        ensures Calm(rest[i]) && (i % 2 == 0 ==> rest[i].external != [])
      {
        assert rest[i] == ahead[i + 2];
      }
    }
  }

  lemma NeverCanceled(s: Store, w: Weather, op: Op)
    ensures !Call(s, w, op).1.Canceled?
  {
  }

  /** The server accepted a write of the controller whose result is `l`, renewed no earlier than `start`. */
  ghost predicate RenewedSince(s: Store, start: nat, t: Store, l: Lease) {
    && |s.writes| < |t.writes|
    && t.writes[|t.writes| - 1].after == l
    && l.renewTime.Some? && l.renewTime.value >= start
  }
}
