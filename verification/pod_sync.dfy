/** Comparison of pods, and the reconciliation of one pod with the provider. */
module PodSync {
  import opened Pods
  import opened KnownPods

  // ----- Image comparison -----

  /** Every image of the first list occurs in the second; nothing is asked in the other direction. */
  predicate ImagesCovered(a: seq<string>, b: seq<string>) {
    forall i | 0 <= i < |a| :: a[i] in b
  }

  method ContainersImageEqual(a: seq<string>, b: seq<string>) returns (equal: bool)
    ensures equal <==> ImagesCovered(a, b)
  {
    for i := 0 to |a|
      invariant forall k | 0 <= k < i :: a[k] in b
    {
      var exist := false;
      for j := 0 to |b|
        invariant exist <==> a[i] in b[..j]
      {
        if a[i] == b[j] {
          exist := true;
          continue;
        }
      }
      assert b[..|b|] == b;
      if !exist {
        return false;
      }
    }
    return true;
  }

  predicate PairwiseDistinct(a: seq<string>) {
    forall i, j | 0 <= i < j < |a| :: a[i] != a[j]
  }

  /** The check is a preorder. */
  lemma CoveredTransitive(a: seq<string>, b: seq<string>, c: seq<string>)
    requires ImagesCovered(a, b) && ImagesCovered(b, c)
    ensures ImagesCovered(a, c) && ImagesCovered(a, a)
  {
    forall i | 0 <= i < |a|
      ensures a[i] in c
    {
      var j :| 0 <= j < |b| && b[j] == a[i];
    }
  }

  lemma CoveredRest(a: seq<string>, b: seq<string>, j: nat)
    requires a != [] && PairwiseDistinct(a) && ImagesCovered(a, b) && j < |b| && b[j] == a[0]
    ensures ImagesCovered(a[1..], Without(b, j))
  {
    forall i | 0 <= i < |a[1..]|
      ensures a[1..][i] in Without(b, j)
    {
      assert a[i + 1] in b && a[i + 1] != a[0];
      var k :| 0 <= k < |b| && b[k] == a[i + 1];
      assert Without(b, j)[if k < j then k else k - 1] == a[i + 1];
    }
  }

  lemma WithoutMultiset(b: seq<string>, j: nat)
    requires j < |b|
    ensures multiset(b) == multiset(Without(b, j)) + multiset{b[j]}
  {
    assert b == b[..j] + [b[j]] + b[j + 1..];
  }

  lemma {:induction false} CoveredIsPermutation(a: seq<string>, b: seq<string>)
    requires |a| == |b| && PairwiseDistinct(a) && ImagesCovered(a, b)
    ensures multiset(a) == multiset(b)
    decreases |a|
  {
    if a != [] {
      assert a[0] in b;
      var j :| 0 <= j < |b| && b[j] == a[0];
      CoveredRest(a, b, j);
      CoveredIsPermutation(a[1..], Without(b, j));
      WithoutMultiset(b, j);
      WithoutMultiset(a, 0);
      assert Without(a, 0) == a[1..];
    }
  }

  /** Pigeonhole: on lists of equal length, the first without repetition, the one-sided check is exact. */
  lemma CoveredIffPermutation(a: seq<string>, b: seq<string>)
    requires |a| == |b| && PairwiseDistinct(a)
    ensures ImagesCovered(a, b) <==> multiset(a) == multiset(b)
  {
    if ImagesCovered(a, b) {
      CoveredIsPermutation(a, b);
    } else {
      var i :| 0 <= i < |a| && a[i] !in b;
      assert a[i] in multiset(a) && a[i] !in multiset(b);
    }
  }

  function Concatenated(a: seq<string>): string {
    if a == [] then "" else a[0] + Concatenated(a[1..])
  }

  lemma {:induction false} NoneIsLonger(a: seq<string>, i: nat)
    requires i < |a|
    ensures |a[i]| <= |Concatenated(a)|
    decreases |a|
  {
    if i > 0 {
      NoneIsLonger(a[1..], i - 1);
    }
  }

  lemma FreshImage(a: seq<string>) returns (image: string)
    ensures image !in a
  {
    image := Concatenated(a) + "x";
    forall i | 0 <= i < |a|
      ensures a[i] != image
    {
      NoneIsLonger(a, i);
    }
  }

  /** Replacing one of several equal images is not noticed. */
  lemma RepeatedImageHidesChange(a: seq<string>, i: nat, j: nat, image: string)
    requires i < |a| && j < |a| && i != j && a[i] == a[j]
    ensures ImagesCovered(a, a[j := image])
  {
    var b := a[j := image];
    forall k | 0 <= k < |a|
      ensures a[k] in b
    {
      assert b[if k == j then i else k] == a[k];
    }
  }

  /** The condition is exact: the check tells permutations from other lists of the same length if and only if the
      first list has no repetition. */
  lemma ImageCheckExactIffDistinct(a: seq<string>)
    ensures PairwiseDistinct(a) <==>
            forall b: seq<string> | |b| == |a| :: ImagesCovered(a, b) <==> multiset(a) == multiset(b)
  {
    if PairwiseDistinct(a) {
      forall b: seq<string> | |b| == |a|
        ensures ImagesCovered(a, b) <==> multiset(a) == multiset(b)
      {
        CoveredIffPermutation(a, b);
      }
    } else {
      var i, j :| 0 <= i < j < |a| && a[i] == a[j];
      var image := FreshImage(a);
      var b := a[j := image];
      RepeatedImageHidesChange(a, i, j, image);
      assert b[j] in multiset(b) && image !in multiset(a);
      assert |b| == |a| && !(ImagesCovered(a, b) <==> multiset(a) == multiset(b));
    }
  }

  /** On such lists the check is symmetric. */
  lemma CoveredSymmetric(a: seq<string>, b: seq<string>)
    requires |a| == |b| && PairwiseDistinct(a) && ImagesCovered(a, b)
    ensures ImagesCovered(b, a)
  {
    CoveredIffPermutation(a, b);
    forall i | 0 <= i < |b|
      ensures b[i] in a
    {
      assert b[i] in multiset(b);
    }
  }

  // ----- Pod comparison -----

  predicate PodsEqual(p: Pod, q: Pod) {
    && ImagesCovered(p.spec.images, q.spec.images)
    && ImagesCovered(p.spec.initImages, q.spec.initImages)
    && p.spec.activeDeadlineSeconds == q.spec.activeDeadlineSeconds
    && p.spec.tolerations == q.spec.tolerations
    && p.labels == q.labels && p.annotations == q.annotations
  }

  /** Equal up to the status and the resource version. */
  predicate EffectivelyEqual(p: Pod, q: Pod) {
    p == q.(status := p.status, resourceVersion := p.resourceVersion)
  }

  /** A container counts as running unless it is terminated or waiting. */
  predicate ContainerRunning(s: ContainerState) {
    s.terminated.None? && !s.waiting
  }

  predicate AnyRunning(status: PodStatus) {
    exists i :: 0 <= i < |status.containerStatuses| && ContainerRunning(status.containerStatuses[i].state)
  }

  method IsRunning(status: PodStatus) returns (running: bool)
    ensures running <==> AnyRunning(status)
  {
    for i := 0 to |status.containerStatuses|
      invariant forall j | 0 <= j < i :: !ContainerRunning(status.containerStatuses[j].state)
    {
      if status.containerStatuses[i].state.terminated.None? && !status.containerStatuses[i].state.waiting {
        return true;
      }
    }
    return false;
  }

  // ----- Reconciliation with the provider -----

  datatype Call = CreatePod(pod: Pod) | UpdatePod(pod: Pod) | DeletePod(pod: Pod)

  /** `PodUnknown` says that the provider does not hold the pod, or no longer. */
  datatype Deletion = Deleted | PodUnknown | DeletionFailed

  /** How the calls of one sync turn out: the populated environment (which changes only fields that the pod
      comparison ignores), or no environment; and the provider's answers. */
  datatype Outcomes = Outcomes(environment: Option<string>, accepts: bool, deletion: Deletion)

  /** The pod that the provider holds, the record that knownPods holds, and the provider's successful calls. */
  datatype SyncState = SyncState(provider: Option<Pod>, known: Option<Record>, calls: seq<Call>)

  function ForProvider(pod: Pod, environment: string): Pod {
    pod.(spec := pod.spec.(rest := environment))
  }

  function Done(s: SyncState, pod: Pod): SyncState
    requires s.known.Some?
  {
    s.(known := Some(s.known.value.(lastPodUsed := Some(pod))))
  }

  /** createOrUpdatePod. A successful update puts an empty record in place, so that the pod just used is noted
      in a record that nobody reads any more. */
  function CreateOrUpdate(s: SyncState, pod: Pod, o: Outcomes): (SyncState, bool)
    requires s.known.Some?
  {
    if o.environment.None? then (s, false)
    else
      var p := ForProvider(pod, o.environment.value);
      if s.provider.Some? && PodsEqual(s.provider.value, p) then (Done(s, pod), true)
      else if !o.accepts then (s, false)
      else if s.provider.Some? then
        (SyncState(Some(p), Some(EMPTY_RECORD), s.calls + [UpdatePod(p)]), true)
      else
        (Done(s.(provider := Some(p), calls := s.calls + [CreatePod(p)]), pod), true)
  }

  /** syncPodInProvider, with the flag that it reported no error. */
  function Sync(s: SyncState, pod: Pod, o: Outcomes): (SyncState, bool) {
    if pod.deletionTimestamp.Some? && !AnyRunning(pod.status) then (s, true)
    else if s.known.None? then (s, true)
    else if s.known.value.lastPodUsed.Some? && EffectivelyEqual(s.known.value.lastPodUsed.value, pod) then (s, true)
    else if pod.deletionTimestamp.Some? then
      match o.deletion
      case DeletionFailed => (s, false)
      case PodUnknown => (Done(s.(provider := None), pod), true)
      case Deleted => (Done(s.(provider := None, calls := s.calls + [DeletePod(pod)]), pod), true)
    else if IsTerminal(pod.status) then (Done(s, pod), true)
    else CreateOrUpdate(s, pod, o)
  }

  class Controller {
    var provider: Option<Pod>
    var known: KnownPod?
    var calls: seq<Call>

    ghost function State(): SyncState
      reads this, known
    {
      SyncState(provider, if known == null then None else Some(known.Value()), calls)
    }

    constructor ()
      ensures State() == SyncState(None, None, [])
    {
      provider, known, calls := None, null, [];
    }

    method CreateOrUpdatePod(pod: Pod, o: Outcomes) returns (ok: bool)
      requires known != null
      modifies this
      ensures var (after, success) := CreateOrUpdate(old(State()), pod, o);
              && ok == success && provider == after.provider && calls == after.calls
              && (if calls == old(calls) || old(provider).None? then known == old(known)
                  else known != null && fresh(known) && known.Value() == EMPTY_RECORD)
    {
      if o.environment.None? {
        return false;
      }
      var p := ForProvider(pod, o.environment.value);
      if provider.Some? {
        var equal := ComparePods(provider.value, p);
        if !equal {
          if !o.accepts {
            return false;
          }
          provider, calls := Some(p), calls + [UpdatePod(p)];
          known := new KnownPod();
        }
      } else {
        if !o.accepts {
          return false;
        }
        provider, calls := Some(p), calls + [CreatePod(p)];
      }
      return true;
    }

    method SyncPodInProvider(pod: Pod, o: Outcomes) returns (ok: bool)
      modifies this, known
      ensures (State(), ok) == Sync(old(State()), pod, o)
    {
      var running := IsRunning(pod.status);
      if pod.deletionTimestamp.Some? && !running {
        return true;
      }
      if known == null {
        return true;
      }
      var kPod := known;
      if kPod.lastPodUsed.Some? && EffectivelyEqual(kPod.lastPodUsed.value, pod) {
        return true;
      }
      if pod.deletionTimestamp.Some? {
        if o.deletion.DeletionFailed? {
          return false;
        }
        if o.deletion.Deleted? {
          calls := calls + [DeletePod(pod)];
        }
        provider := None;
      } else if !IsTerminal(pod.status) {
        var success := CreateOrUpdatePod(pod, o);
        if !success {
          return false;
        }
      }
      kPod.lastPodUsed := Some(pod);
      return true;
    }
  }

  method ComparePods(p: Pod, q: Pod) returns (equal: bool)
    ensures equal <==> PodsEqual(p, q)
  {
    var images := ContainersImageEqual(p.spec.images, q.spec.images);
    var initImages := ContainersImageEqual(p.spec.initImages, q.spec.initImages);
    equal := images && initImages && p.spec.activeDeadlineSeconds == q.spec.activeDeadlineSeconds
             && p.spec.tolerations == q.spec.tolerations && p.labels == q.labels && p.annotations == q.annotations;
  }

  // ----- Repeated sync is idempotent -----

  datatype Attempt = Attempt(pod: Pod, outcomes: Outcomes)

  function SyncAll(s: SyncState, attempts: seq<Attempt>): SyncState
    decreases |attempts|
  {
    if attempts == [] then s else SyncAll(Sync(s, attempts[0].pod, attempts[0].outcomes).0, attempts[1..])
  }

  /** The attempts are all for the same pod, which is neither terminal nor being deleted. */
  predicate SamePod(pod: Pod, attempts: seq<Attempt>) {
    forall i | 0 <= i < |attempts| ::
      && EffectivelyEqual(pod, attempts[i].pod)
      && attempts[i].pod.deletionTimestamp.None? && !IsTerminal(attempts[i].pod.status)
  }

  /** The provider holds the pod, as far as the comparison can tell. */
  predicate InPlace(s: SyncState, pod: Pod) {
    s.provider.Some? && PodsEqual(s.provider.value, pod)
  }

  lemma SyncOnce(s: SyncState, pod: Pod, a: Attempt)
    requires SamePod(pod, [a])
    ensures var t := Sync(s, a.pod, a.outcomes).0;
            && (InPlace(s, pod) ==> InPlace(t, pod) && t.calls == s.calls)
            && (t.calls == s.calls || (|t.calls| == |s.calls| + 1 && InPlace(t, pod)))
  {
    assert EffectivelyEqual(pod, [a][0].pod);
  }

  /** Any number of attempts, with any failures in between, make at most one successful call. */
  lemma {:induction false} RepeatedSyncIsIdempotent(s: SyncState, pod: Pod, attempts: seq<Attempt>)
    requires SamePod(pod, attempts)
    ensures var t := SyncAll(s, attempts);
            && |s.calls| <= |t.calls| <= |s.calls| + 1
            && (InPlace(s, pod) ==> t.calls == s.calls)
    decreases |attempts|
  {
    if attempts != [] {
      var a := attempts[0];
      assert SamePod(pod, [a]);
      SyncOnce(s, pod, a);
      RepeatedSyncIsIdempotent(Sync(s, a.pod, a.outcomes).0, pod, attempts[1..]);
    }
  }

  // ----- A reported success means that the provider holds the pod -----

  /** What the record says was used last is in place, or gone from the provider if it was being deleted; a terminal pod
      may be either. */
  ghost predicate RecordTrue(s: SyncState) {
    s.known.Some? && s.known.value.lastPodUsed.Some? ==>
      var used := s.known.value.lastPodUsed.value;
      if used.deletionTimestamp.Some? then s.provider.None? else IsTerminal(used.status) || InPlace(s, used)
  }

  lemma SyncKeepsRecordTrue(s: SyncState, pod: Pod, o: Outcomes)
    requires RecordTrue(s)
    ensures RecordTrue(Sync(s, pod, o).0)
  {
  }

  lemma {:induction false} RunsKeepRecordTrue(s: SyncState, attempts: seq<Attempt>)
    requires RecordTrue(s)
    ensures RecordTrue(SyncAll(s, attempts))
    decreases |attempts|
  {
    if attempts != [] {
      SyncKeepsRecordTrue(s, attempts[0].pod, attempts[0].outcomes);
      RunsKeepRecordTrue(Sync(s, attempts[0].pod, attempts[0].outcomes).0, attempts[1..]);
    }
  }

  /** The record notes a terminal pod that differs from this one only in its status. */
  predicate MistakenForTerminal(s: SyncState, pod: Pod) {
    && s.known.Some? && s.known.value.lastPodUsed.Some?
    && EffectivelyEqual(s.known.value.lastPodUsed.value, pod)
    && IsTerminal(s.known.value.lastPodUsed.value.status)
  }

  /** After any history, exactly when a successful sync of a live pod leaves it in place: it was in place already, or
      there is a record and the record does not mistake the pod for its own terminal state. Otherwise the sync
      reports success and changes nothing. */
  lemma SuccessMeansInPlace(history: seq<Attempt>, start: SyncState, pod: Pod, o: Outcomes)
    requires RecordTrue(start)
    requires pod.deletionTimestamp.None? && !IsTerminal(pod.status)
    requires Sync(SyncAll(start, history), pod, o).1
    ensures var s := SyncAll(start, history);
            && (InPlace(Sync(s, pod, o).0, pod) <==>
                  InPlace(s, pod) || (s.known.Some? && !MistakenForTerminal(s, pod)))
            && (s.known.None? || MistakenForTerminal(s, pod) ==> Sync(s, pod, o).0 == s)
  {
    RunsKeepRecordTrue(start, history);
  }

  /** The provider's pod agrees with `pod` in all that the comparison looks at. */
  predicate Matches(provider: Pod, pod: Pod) {
    && provider.labels == pod.labels && provider.annotations == pod.annotations
    && provider.spec.activeDeadlineSeconds == pod.spec.activeDeadlineSeconds
    && provider.spec.tolerations == pod.spec.tolerations
    && (forall i | 0 <= i < |provider.spec.images| :: provider.spec.images[i] in pod.spec.images)
    && (forall i | 0 <= i < |provider.spec.initImages| :: provider.spec.initImages[i] in pod.spec.initImages)
  }

  /** What being in place means, field by field; and exactly such differences make a sync call the provider. */
  lemma InPlaceIffMatches(s: SyncState, pod: Pod, o: Outcomes)
    requires s.provider.Some?
    ensures InPlace(s, pod) <==> Matches(s.provider.value, pod)
    ensures pod.deletionTimestamp.None? && !IsTerminal(pod.status) && o.environment.Some? && o.accepts &&
            s.known.Some? && s.known.value.lastPodUsed.None? ==>
              (Sync(s, pod, o).0.calls == s.calls <==> Matches(s.provider.value, pod))
  {
  }

  // ----- Calls suit the provider's state -----

  /** The record notes this pod as used last, up to status and resource version. */
  predicate Noted(s: SyncState, pod: Pod) {
    && s.known.Some? && s.known.value.lastPodUsed.Some?
    && EffectivelyEqual(s.known.value.lastPodUsed.value, pod)
  }

  /** The call that a sync made, if any, suits what the provider held before and explains what it holds after; an
      update puts an empty record in place, and nothing else changes the record but to note the pod. */
  predicate CallSuits(s: SyncState, pod: Pod, t: SyncState, environment: Option<string>)
    requires s.known.Some?
  {
    || (t.calls == s.calls && (t.provider == s.provider || (pod.deletionTimestamp.Some? && t.provider.None?)))
    || (&& t.calls == s.calls + [DeletePod(pod)] && pod.deletionTimestamp.Some? && t.provider.None?
        && t.known == Some(s.known.value.(lastPodUsed := Some(pod))))
    || (&& environment.Some? && pod.deletionTimestamp.None?
        && t.provider == Some(pod.(spec := pod.spec.(rest := environment.value)))
        && if s.provider.None?
           then t.calls == s.calls + [CreatePod(t.provider.value)] &&
                t.known == Some(s.known.value.(lastPodUsed := Some(pod)))
           else t.calls == s.calls + [UpdatePod(t.provider.value)] && t.known == Some(Record(None, None, false)))
  }

  lemma CallsSuitProvider(s: SyncState, pod: Pod, o: Outcomes)
    requires s.known.Some?
    ensures CallSuits(s, pod, Sync(s, pod, o).0, o.environment)
  {
  }

  /** Exactly when a sync reports an error, and that it then changes nothing: there is a record that does not note the
      pod, and the provider fails to delete a pod with a running container, or the environment of a live pod cannot be
      resolved, or the provider refuses a live pod that it does not hold already. */
  lemma FailsIff(s: SyncState, pod: Pod, o: Outcomes)
    ensures !Sync(s, pod, o).1 <==>
            && s.known.Some? && !Noted(s, pod)
            && if pod.deletionTimestamp.Some? then AnyRunning(pod.status) && o.deletion.DeletionFailed?
               else && pod.status.phase != Succeeded && pod.status.phase != Failed
                    && (o.environment.None? ||
                        (!o.accepts && !(s.provider.Some? && Matches(s.provider.value, pod))))
    ensures !Sync(s, pod, o).1 ==> Sync(s, pod, o).0 == s
  {
  }

  // ----- Deletion -----

  /** After any history, exactly when a successful sync of a pod that is being deleted leaves nothing in the provider:
      nothing was there, or there is a record and a container counts as running. The provider is asked exactly then,
      and unless the record already notes the pod. */
  lemma DeletionReachesProvider(history: seq<Attempt>, start: SyncState, pod: Pod, o: Outcomes)
    requires RecordTrue(start) && pod.deletionTimestamp.Some? && Sync(SyncAll(start, history), pod, o).1
    ensures var s := SyncAll(start, history);
            var t := Sync(s, pod, o).0;
            && (t.provider.None? <==> s.provider.None? || (s.known.Some? && AnyRunning(pod.status)))
            && (t.calls == if s.known.Some? && AnyRunning(pod.status) && !Noted(s, pod) && o.deletion.Deleted?
                           then s.calls + [DeletePod(pod)] else s.calls)
  {
    RunsKeepRecordTrue(start, history);
  }

  /** The attempts are all for the same pod, which is being deleted. */
  predicate SameDeleted(pod: Pod, attempts: seq<Attempt>) {
    pod.deletionTimestamp.Some? && forall i | 0 <= i < |attempts| :: EffectivelyEqual(pod, attempts[i].pod)
  }

  /** Any number of attempts to delete a pod make at most one successful call, and it is a deletion. */
  lemma {:induction false} RepeatedDeletionIsIdempotent(s: SyncState, pod: Pod, attempts: seq<Attempt>)
    requires SameDeleted(pod, attempts)
    ensures var t := SyncAll(s, attempts);
            && (Noted(s, pod) ==> t == s)
            && (t.calls == s.calls ||
                (|t.calls| == |s.calls| + 1 && t.calls[..|s.calls|] == s.calls && t.calls[|s.calls|].DeletePod?
                 && EffectivelyEqual(pod, t.calls[|s.calls|].pod)))
    decreases |attempts|
  {
    if attempts != [] {
      var a := attempts[0];
      assert EffectivelyEqual(pod, a.pod);
      RepeatedDeletionIsIdempotent(Sync(s, a.pod, a.outcomes).0, pod, attempts[1..]);
    }
  }

  /** The mistake is reachable: a pod first seen in a terminal state is never created when it turns out alive. */
  lemma TerminalRecordHidesPod(pod: Pod, dead: PodStatus, o: Outcomes)
    requires pod.deletionTimestamp.None? && !IsTerminal(pod.status) && IsTerminal(dead)
    ensures var s := SyncState(None, Some(EMPTY_RECORD), []);
            var t := SyncAll(s, [Attempt(pod.(status := dead), o), Attempt(pod, o)]);
            t.provider.None? && t.calls == [] && Sync(t, pod, o).1
  {
    var s := SyncState(None, Some(EMPTY_RECORD), []);
    var attempts := [Attempt(pod.(status := dead), o), Attempt(pod, o)];
    var s1 := Sync(s, pod.(status := dead), o).0;
    assert s1 == Done(s, pod.(status := dead));
    assert Sync(s1, pod, o) == (s1, true);
    assert attempts[1..] == [Attempt(pod, o)] && [Attempt(pod, o)][1..] == [];
    assert SyncAll(s1, [Attempt(pod, o)]) == s1;
  }

  function WithImages(pod: Pod, images: seq<string>): Pod {
    pod.(spec := pod.spec.(images := images))
  }

  /** The provider holds `pod`, and the record notes no pod with other images. */
  ghost predicate Synced(s: SyncState, pod: Pod) {
    && s.provider == Some(pod) && s.known.Some?
    && (s.known.value.lastPodUsed.Some? ==> s.known.value.lastPodUsed.value.spec.images == pod.spec.images)
  }

  /** A sync that could pass on an update. */
  predicate Willing(pod: Pod, o: Outcomes) {
    pod.deletionTimestamp.None? && !IsTerminal(pod.status) && o.environment.Some? && o.accepts
  }

  lemma SyncOfOtherImages(s: SyncState, pod: Pod, images: seq<string>, o: Outcomes)
    requires Synced(s, pod) && Willing(pod, o) && images != pod.spec.images
    ensures var (t, ok) := Sync(s, WithImages(pod, images), o);
            var p := ForProvider(WithImages(pod, images), o.environment.value);
            && ok
            && if ImagesCovered(pod.spec.images, images) then t.calls == s.calls && t.provider == s.provider
               else t.calls == s.calls + [UpdatePod(p)] && t.provider == Some(p)
  {
    assert WithImages(pod, images).spec.images == images;
  }

  /** The one-sided image check loses updates: whenever two containers share an image, giving one of them any other
      image is reported as a success and not passed on. */
  lemma ImageUpdateLost(s: SyncState, pod: Pod, i: nat, j: nat, image: string, o: Outcomes)
    requires Synced(s, pod) && Willing(pod, o)
    requires var a := pod.spec.images; i < |a| && j < |a| && i != j && a[i] == a[j] != image
    ensures var (t, ok) := Sync(s, WithImages(pod, pod.spec.images[j := image]), o);
            ok && t.calls == s.calls && t.provider == Some(pod)
  {
    var a := pod.spec.images;
    assert a[j := image][j] != a[j];
    RepeatedImageHidesChange(a, i, j, image);
    SyncOfOtherImages(s, pod, a[j := image], o);
  }

  /** Exactly when no update of the images is lost: every list of the same length that is no permutation reaches the
      provider if and only if the images it holds are pairwise distinct. */
  lemma ImageUpdatesReachIffDistinct(s: SyncState, pod: Pod, o: Outcomes)
    requires Synced(s, pod) && Willing(pod, o)
    ensures PairwiseDistinct(pod.spec.images) <==>
            forall images: seq<string> |
                |images| == |pod.spec.images| && multiset(images) != multiset(pod.spec.images) ::
              Sync(s, WithImages(pod, images), o).0.provider ==
              Some(ForProvider(WithImages(pod, images), o.environment.value))
  {
    var a := pod.spec.images;
    if PairwiseDistinct(a) {
      forall images: seq<string> | |images| == |a| && multiset(images) != multiset(a)
        ensures Sync(s, WithImages(pod, images), o).0.provider ==
                Some(ForProvider(WithImages(pod, images), o.environment.value))
      {
        CoveredIffPermutation(a, images);
        SyncOfOtherImages(s, pod, images, o);
      }
    } else {
      var i, j :| 0 <= i < j < |a| && a[i] == a[j];
      var image := FreshImage(a);
      var b := a[j := image];
      assert b[j] in multiset(b) && image !in multiset(a);
      ImageUpdateLost(s, pod, i, j, image, o);
      assert ForProvider(WithImages(pod, b), o.environment.value).spec.images == b != a;
    }
  }
}
