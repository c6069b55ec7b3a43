/** The three-way patch of the node object: what the provider wants, what it applied last (kept in two
    annotations of the node itself), and what the API server holds. */
module NodePatch {
  import opened Pods

  /** A leaf of the node object. Conditions are list elements with the type as merge key; every other leaf of
      the status that the patch library merges by key is a status field. */
  datatype Path =
    | Label(key: string)
    | Annotation(key: string)
    | Condition(kind: string, field: string)
    | StatusField(key: string)

  /** A value, or the JSON form of recorded leaves. */
  datatype Leaf = Text(text: string) | Recorded(tree: map<Path, Leaf>)

  type Tree = map<Path, Leaf>

  const STATUS_KEY: string := "virtual-kubelet.io/last-applied-node-status"
  const META_KEY: string := "virtual-kubelet.io/last-applied-object-meta"
  const STATUS: Path := Annotation(STATUS_KEY)
  const META: Path := Annotation(META_KEY)

  predicate Bookkeeping(p: Path) {
    p == STATUS || p == META
  }

  predicate IsMeta(p: Path) {
    p.Label? || p.Annotation?
  }

  function MetaPart(t: Tree): Tree {
    map p | p in t && IsMeta(p) :: t[p]
  }

  function StatusPart(t: Tree): Tree {
    map p | p in t && !IsMeta(p) :: t[p]
  }

  /** What simplestObjectMetadata and the copied status keep of the provider's node. */
  function Wanted(provider: Tree): Tree {
    map p | p in provider && !Bookkeeping(p) :: provider[p]
  }

  /** The node that the provider wants, with the record of what it wants. */
  function Target(provider: Tree): Tree {
    var wanted := Wanted(provider);
    wanted[META := Recorded(MetaPart(wanted))][STATUS := Recorded(StatusPart(wanted))]
  }

  datatype Decoded = Nothing | Applied(tree: Tree) | Malformed

  /** What the server says was applied last: nothing unless both annotations are there. */
  function LastApplied(server: Tree): Decoded {
    if META !in server || STATUS !in server then Nothing
    else if server[META].Recorded? && server[STATUS].Recorded? then Applied(server[META].tree + server[STATUS].tree)
    else Malformed
  }

  function Kinds(t: Tree): set<string> {
    set p | p in t && p.Condition? :: p.kind
  }

  /** Leaves to set, leaves to delete, and conditions to delete as a whole. */
  datatype Patch = Patch(sets: Tree, deletes: set<Path>, drops: set<string>)

  /** CreateThreeWayMergePatch with overwrite: deletions from old to new, changes from current to new. */
  function ThreeWay(last: Tree, target: Tree, current: Tree): Patch {
    Patch(map p | p in target && (p !in current || current[p] != target[p]) :: target[p],
          last.Keys - target.Keys,
          Kinds(last) - Kinds(target))
  }

  predicate Deletes(patch: Patch, p: Path) {
    p in patch.deletes || (p.Condition? && p.kind in patch.drops)
  }

  function ApplyPatch(server: Tree, patch: Patch): Tree {
    (map p | p in server && !Deletes(patch, p) :: server[p]) + patch.sets
  }

  /** prepareThreewayPatchBytesForNodeStatus: `None` when the recorded state cannot be read. */
  function Prepare(provider: Tree, server: Tree): Option<Patch> {
    match LastApplied(server)
    case Malformed => None
    case Nothing => Some(ThreeWay(map[], Target(provider), server))
    case Applied(last) => Some(ThreeWay(last, Target(provider), server))
  }

  /** Before anything was recorded, the patch only adds and overwrites. */
  lemma FirstContactDeletesNothing(provider: Tree, server: Tree)
    requires LastApplied(server).Nothing?
    ensures var patch := Prepare(provider, server).value;
            && (forall p :: !Deletes(patch, p))
            && (forall p <- server :: p in ApplyPatch(server, patch))
  {
  }

  /** The patch fails exactly if both annotations are there and one of them cannot be read. */
  lemma PrepareFailsIff(provider: Tree, server: Tree)
    ensures Prepare(provider, server).None? <==>
            && Annotation(META_KEY) in server && Annotation(STATUS_KEY) in server
            && (server[Annotation(META_KEY)].Text? || server[Annotation(STATUS_KEY)].Text?)
  {
  }

  lemma PartsRestore(t: Tree)
    ensures MetaPart(t) + StatusPart(t) == t
  {
  }

  // ----- Runs -----

  /** The server's node, the provider's latest node, and the patch computed from a Get that is still to be sent. */
  datatype World = World(server: Tree, provider: Tree, prepared: Option<Patch>)

  datatype Event =
    | Provide(node: Tree)                        // the provider reports a new node
    | Foreign(path: Path, value: Option<Leaf>)   // somebody else sets or removes a leaf
    | GetNode                                    // updateNodeStatus reads the node and computes the patch
    | PatchNode(applied: bool)                   // it sends the patch, which may be refused or lost

  predicate Enabled(w: World, e: Event) {
    match e
    case Provide(_) => w.prepared.None?
    case Foreign(p, _) => !Bookkeeping(p)
    case GetNode => w.prepared.None?
    case PatchNode(_) => w.prepared.Some?
  }

  function ForeignWrite(t: Tree, p: Path, value: Option<Leaf>): Tree {
    if value.Some? then t[p := value.value] else t - {p}
  }

  function Apply(w: World, e: Event): World
    requires Enabled(w, e)
  {
    match e
    case Provide(n) => w.(provider := n)
    case Foreign(p, v) => w.(server := ForeignWrite(w.server, p, v))
    case GetNode => w.(prepared := Prepare(w.provider, w.server))
    case PatchNode(applied) =>
      w.(server := if applied then ApplyPatch(w.server, w.prepared.value) else w.server, prepared := None)
  }

  predicate ValidRun(w: World, events: seq<Event>)
    decreases |events|
  {
    events == [] || (Enabled(w, events[0]) && ValidRun(Apply(w, events[0]), events[1..]))
  }

  function Exec(w: World, events: seq<Event>): World
    requires ValidRun(w, events)
    decreases |events|
  {
    if events == [] then w else Exec(Apply(w, events[0]), events[1..])
  }

  /** The node as the other writers alone would have left it. */
  function ForeignView(t: Tree, events: seq<Event>): Tree
    decreases |events|
  {
    if events == [] then t else ForeignView(ForeignStep(t, events[0]), events[1..])
  }

  function ForeignStep(t: Tree, e: Event): Tree {
    if e.Foreign? then ForeignWrite(t, e.path, e.value) else t
  }

  // ----- Bookkeeping never nests -----

  predicate Unnested(leaf: Leaf) {
    leaf.Recorded? ==> META !in leaf.tree && STATUS !in leaf.tree
  }

  predicate NoNesting(t: Tree) {
    (META in t ==> Unnested(t[META])) && (STATUS in t ==> Unnested(t[STATUS]))
  }

  ghost predicate Clean(w: World) {
    && NoNesting(w.server)
    && (w.prepared.Some? ==>
          NoNesting(w.prepared.value.sets) && META !in w.prepared.value.deletes && STATUS !in w.prepared.value.deletes)
  }

  lemma CleanStep(w: World, e: Event)
    requires Clean(w) && Enabled(w, e)
    ensures Clean(Apply(w, e))
  {
  }

  /** Whatever the provider reports, even the server's own node with its bookkeeping, the recorded metadata
      never contains a bookkeeping annotation and no patch ever deletes one. */
  lemma {:induction false} BookkeepingNeverNests(w: World, events: seq<Event>)
    requires Clean(w) && ValidRun(w, events)
    ensures Clean(Exec(w, events))
    decreases |events|
  {
    if events != [] {
      CleanStep(w, events[0]);
      BookkeepingNeverNests(Apply(w, events[0]), events[1..]);
    }
  }
}

/** The computation of the patch on shared maps. */
module NodePatchObjects {
  import opened Pods
  import opened NodePatch

  /** A Go map: shared when it is assigned. */
  class LeafMap {
    var entries: Tree

    constructor ()
      ensures entries == map[]
    {
      entries := map[];
    }
  }

  function Entries(m: LeafMap?): Tree
    reads m
  {
    if m == null then map[] else m.entries
  }

  /** The label map, the annotation map and the status of one node. */
  predicate Sorted(labels: Tree, annotations: Tree, status: Tree) {
    && (forall p <- labels :: p.Label?)
    && (forall p <- annotations :: p.Annotation?)
    && (forall p <- status :: !IsMeta(p))
  }

  function TreeOf(labels: Tree, annotations: Tree, status: Tree): Tree {
    labels + annotations + status
  }

  /** The result's annotation map is new; its label map may be the provider's own. */
  method SimplestObjectMetadata(labels: LeafMap?, annotations: LeafMap?)
    returns (retLabels: LeafMap, retAnnotations: LeafMap)
    ensures fresh(retAnnotations) && retAnnotations.entries == Wanted(Entries(annotations))
    ensures retLabels.entries == Entries(labels) && (labels != null ==> retLabels == labels)
    ensures retLabels != retAnnotations
  {
    if labels != null {
      retLabels := labels;
    } else {
      retLabels := new LeafMap();
    }
    retAnnotations := new LeafMap();
    if annotations != null {
      var left := annotations.entries.Keys;
      while left != {}
        invariant left <= annotations.entries.Keys
        invariant retAnnotations.entries == Wanted(annotations.entries - left)
        modifies retAnnotations
      {
        var key :| key in left;
        if key != STATUS && key != META {
          retAnnotations.entries := retAnnotations.entries[key := annotations.entries[key]];
        }
        left := left - {key};
      }
      assert annotations.entries - left == annotations.entries;
    }
  }

  lemma WantedInParts(labels: Tree, annotations: Tree, status: Tree)
    requires Sorted(labels, annotations, status)
    ensures Wanted(TreeOf(labels, annotations, status)) == TreeOf(labels, Wanted(annotations), status)
  {
  }

  lemma PartsOf(labels: Tree, annotations: Tree, status: Tree)
    requires Sorted(labels, annotations, status)
    ensures MetaPart(TreeOf(labels, annotations, status)) == labels + annotations
    ensures StatusPart(TreeOf(labels, annotations, status)) == status
  {
  }

  lemma AnnotationAdded(labels: Tree, annotations: Tree, status: Tree, p: Path, leaf: Leaf)
    requires Sorted(labels, annotations, status) && p.Annotation?
    ensures TreeOf(labels, annotations[p := leaf], status) == TreeOf(labels, annotations, status)[p := leaf]
    ensures Sorted(labels, annotations[p := leaf], status)
  {
  }

  lemma TargetInParts(labels: Tree, annotations: Tree, status: Tree)
    requires Sorted(labels, annotations, status)
    ensures var kept := Wanted(annotations);
            var recorded := kept[META := Recorded(labels + kept)][STATUS := Recorded(status)];
            TreeOf(labels, recorded, status) == Target(TreeOf(labels, annotations, status))
  {
    var kept := Wanted(annotations);
    WantedInParts(labels, annotations, status);
    PartsOf(labels, kept, status);
    AnnotationAdded(labels, kept, status, META, Recorded(labels + kept));
    AnnotationAdded(labels, kept[META := Recorded(labels + kept)], status, STATUS, Recorded(status));
  }

  /** prepareThreewayPatchBytesForNodeStatus. The metadata is recorded before the status annotation exists, and
      nothing that existed before the call is modified, the provider's annotation map in particular. */
  method PrepareThreewayPatch(labels: LeafMap?, annotations: LeafMap?, status: Tree, server: Tree)
    returns (patch: Option<Patch>)
    requires Sorted(Entries(labels), Entries(annotations), status)
    ensures patch == Prepare(TreeOf(Entries(labels), Entries(annotations), status), server)
  {
    var last := LastApplied(server);
    if last.Malformed? {
      return None;
    }
    var newLabels, newAnnotations := SimplestObjectMetadata(labels, annotations);
    TargetInParts(Entries(labels), Entries(annotations), status);
    newAnnotations.entries :=
      newAnnotations.entries[META := Recorded(newLabels.entries + newAnnotations.entries)];
    newAnnotations.entries := newAnnotations.entries[STATUS := Recorded(status)];
    var target := TreeOf(newLabels.entries, newAnnotations.entries, status);
    return Some(ThreeWay(if last.Applied? then last.tree else map[], target, server));
  }
}

/** Who owns which part of the node, over whole runs. */
module NodeOwnership {
  import opened Pods
  import opened NodePatch

  /** `mine` are the leaves that the provider may use: conditions only as a whole, bookkeeping never. */
  ghost predicate Territory(mine: Path -> bool) {
    && !mine(META) && !mine(STATUS)
    && forall kind, f, g {:trigger Condition(kind, f), Condition(kind, g)} ::
         mine(Condition(kind, f)) ==> mine(Condition(kind, g))
  }

  ghost predicate Stays(mine: Path -> bool, e: Event) {
    match e
    case Provide(n) => forall p <- n :: mine(p) || Bookkeeping(p)
    case Foreign(p, _) => !mine(p)
    case _ => true
  }

  ghost predicate AllStay(mine: Path -> bool, events: seq<Event>) {
    forall i | 0 <= i < |events| :: Stays(mine, events[i])
  }

  predicate SameAt(s: Tree, t: Tree, p: Path) {
    (p in s <==> p in t) && (p in s ==> s[p] == t[p])
  }

  /** What the provider applied last is what its territory holds, apart from leaves that were there before first
      contact and that it never touched. */
  ghost predicate Holds(server: Tree, initial: Tree, mine: Path -> bool) {
    match LastApplied(server)
    case Malformed => false
    case Nothing => forall p | mine(p) :: SameAt(server, initial, p)
    case Applied(last) =>
      && (forall p <- last :: mine(p) && p in server && server[p] == last[p])
      && (forall p <- server :: mine(p) && p !in last ==> p in initial && server[p] == initial[p])
  }

  ghost predicate Inv(w: World, initial: Tree, shadow: Tree, mine: Path -> bool) {
    && Territory(mine)
    && (forall p <- w.provider :: mine(p) || Bookkeeping(p))
    && (forall p | !mine(p) && !Bookkeeping(p) :: SameAt(w.server, shadow, p))
    && Holds(w.server, initial, mine)
    && (w.prepared.Some? ==> Prepare(w.provider, w.server) == w.prepared)
  }

  /** A write outside the provider's territory does not change the patch, even after the Get. */
  lemma ForeignWriteKeepsPatch(provider: Tree, server: Tree, p: Path, v: Option<Leaf>, mine: Path -> bool)
    requires Territory(mine) && !mine(p) && !Bookkeeping(p)
    requires forall q <- provider :: mine(q) || Bookkeeping(q)
    ensures LastApplied(ForeignWrite(server, p, v)) == LastApplied(server)
    ensures Prepare(provider, ForeignWrite(server, p, v)) == Prepare(provider, server)
  {
    var t := ForeignWrite(server, p, v);
    var target := Target(provider);
    assert p !in target;
    forall q | q in target
      ensures SameAt(server, t, q)
    {
    }
    match LastApplied(server)
    case Malformed =>
    case Nothing => assert ThreeWay(map[], target, t).sets == ThreeWay(map[], target, server).sets;
    case Applied(last) => assert ThreeWay(last, target, t).sets == ThreeWay(last, target, server).sets;
  }

  /** The leaves applied last, none before first contact. */
  function LastTree(server: Tree): Tree {
    match LastApplied(server)
    case Applied(last) => last
    case _ => map[]
  }

  lemma PatchSets(provider: Tree, server: Tree, p: Path)
    requires Prepare(provider, server).Some? && p in Target(provider)
    ensures var after := ApplyPatch(server, Prepare(provider, server).value);
            p in after && after[p] == Target(provider)[p]
  {
    var target := Target(provider);
    if p.Condition? {
      assert p.kind in Kinds(target);
    }
  }

  lemma PatchElsewhere(provider: Tree, server: Tree, p: Path)
    requires Prepare(provider, server).Some? && p !in Target(provider)
    ensures var after := ApplyPatch(server, Prepare(provider, server).value);
            && (p in after <==> p in server && p !in LastTree(server) && !DropsKind(LastTree(server), provider, p))
            && (p in after ==> after[p] == server[p])
  {
    var target := Target(provider);
    assert forall q <- target :: q.Condition? ==> q in provider;
    assert forall q <- provider :: q.Condition? ==> q in target;
  }

  /** Applying `provider` after `last` removes the whole condition that `p` belongs to. */
  predicate DropsKind(last: Tree, provider: Tree, p: Path) {
    p.Condition? && HasCondition(last, p.kind) && !HasCondition(provider, p.kind)
  }

  predicate HasCondition(t: Tree, kind: string) {
    exists q <- t :: q.Condition? && q.kind == kind
  }

  /** The provider wants `p` on the node: everything that it reports except the two bookkeeping annotations. */
  predicate Wants(provider: Tree, p: Path) {
    p in provider && p != Annotation(STATUS_KEY) && p != Annotation(META_KEY)
  }

  lemma WantedIsWants(provider: Tree, p: Path)
    ensures p in Wanted(provider) <==> Wants(provider, p)
    ensures p in Wanted(provider) ==> Wanted(provider)[p] == provider[p]
  {
  }

  /** Every leaf that the provider reports reaches the node with its value, whatever the server holds. */
  lemma ProviderLeafReaches(provider: Tree, server: Tree, p: Path)
    requires Prepare(provider, server).Some? && Wants(provider, p)
    ensures var after := ApplyPatch(server, Prepare(provider, server).value);
            p in after && after[p] == provider[p]
  {
    PatchSets(provider, server, p);
  }

  /** After a patch the recorded state is the provider's state. */
  lemma PatchRecords(provider: Tree, server: Tree)
    requires Prepare(provider, server).Some?
    ensures LastApplied(ApplyPatch(server, Prepare(provider, server).value)) == Applied(Wanted(provider))
  {
    PatchSets(provider, server, META);
    PatchSets(provider, server, STATUS);
    PartsRestore(Wanted(provider));
  }

  /** Patching again changes nothing: right after a patch the next one is empty. */
  lemma SecondPatchIsEmpty(provider: Tree, server: Tree)
    requires Prepare(provider, server).Some?
    ensures var after := ApplyPatch(server, Prepare(provider, server).value);
            Prepare(provider, after) == Some(Patch(map[], {}, {}))
  {
    var after, target := ApplyPatch(server, Prepare(provider, server).value), Target(provider);
    PatchRecords(provider, server);
    forall p | p in target
      ensures p in after && after[p] == target[p]
    {
      PatchSets(provider, server, p);
    }
    var wanted := Wanted(provider);
    assert forall p <- wanted :: p in target;
    assert ThreeWay(wanted, target, after) == Patch(map[], {}, {}) by {
      assert ThreeWay(wanted, target, after).sets == map[];
      assert wanted.Keys - target.Keys == {};
      assert Kinds(wanted) - Kinds(target) == {};
    }
  }

  lemma PatchKeeps(w: World, initial: Tree, shadow: Tree, mine: Path -> bool)
    requires Inv(w, initial, shadow, mine) && w.prepared.Some?
    ensures Inv(Apply(w, PatchNode(true)), initial, shadow, mine)
  {
    var after := ApplyPatch(w.server, w.prepared.value);
    var wanted := Wanted(w.provider);
    PatchRecords(w.provider, w.server);
    forall p | !mine(p) && !Bookkeeping(p)
      ensures SameAt(after, shadow, p)
    {
      assert p !in Target(w.provider);
      PatchElsewhere(w.provider, w.server, p);
      ForeignLeavesAreNotRecorded(w.server, initial, mine, p);
    }
    forall p | p in wanted
      ensures mine(p) && p in after && after[p] == wanted[p]
    {
      PatchSets(w.provider, w.server, p);
    }
    forall p | p in after && mine(p) && p !in wanted
      ensures p in initial && after[p] == initial[p]
    {
      PatchElsewhere(w.provider, w.server, p);
    }
  }

  lemma ForeignLeavesAreNotRecorded(server: Tree, initial: Tree, mine: Path -> bool, p: Path)
    requires Territory(mine) && Holds(server, initial, mine) && !mine(p)
    ensures p !in LastTree(server) && !(p.Condition? && p.kind in Kinds(LastTree(server)))
  {
  }

  lemma ForeignKeeps(w: World, p: Path, v: Option<Leaf>, initial: Tree, shadow: Tree, mine: Path -> bool)
    requires Inv(w, initial, shadow, mine) && !mine(p) && !Bookkeeping(p)
    ensures Inv(Apply(w, Foreign(p, v)), initial, ForeignWrite(shadow, p, v), mine)
  {
    var after, shadow' := ForeignWrite(w.server, p, v), ForeignWrite(shadow, p, v);
    ForeignWriteKeepsPatch(w.provider, w.server, p, v, mine);
    forall q | !mine(q) && !Bookkeeping(q)
      ensures SameAt(after, shadow', q)
    {
      assert SameAt(w.server, shadow, q);
    }
    assert Holds(after, initial, mine) by { ForeignHolds(w.server, p, v, initial, mine); }
  }

  lemma ForeignHolds(server: Tree, p: Path, v: Option<Leaf>, initial: Tree, mine: Path -> bool)
    requires Holds(server, initial, mine) && !mine(p) && !Bookkeeping(p)
    ensures Holds(ForeignWrite(server, p, v), initial, mine)
  {
    var after := ForeignWrite(server, p, v);
    assert LastApplied(after) == LastApplied(server);
    if LastApplied(server).Nothing? {
      forall q | mine(q)
        ensures SameAt(after, initial, q)
      {
        assert SameAt(server, initial, q);
      }
    }
  }

  lemma StepKeeps(w: World, e: Event, initial: Tree, shadow: Tree, mine: Path -> bool)
    requires Inv(w, initial, shadow, mine) && Enabled(w, e) && Stays(mine, e)
    ensures Inv(Apply(w, e), initial, ForeignStep(shadow, e), mine)
  {
    match e
    case Provide(_) =>
    case Foreign(p, v) => ForeignKeeps(w, p, v, initial, shadow, mine);
    case GetNode =>
    case PatchNode(applied) =>
      if applied {
        PatchKeeps(w, initial, shadow, mine);
      }
  }

  lemma {:induction false} RunKeeps(w: World, events: seq<Event>, initial: Tree, shadow: Tree, mine: Path -> bool)
    requires Inv(w, initial, shadow, mine) && ValidRun(w, events) && AllStay(mine, events)
    ensures Inv(Exec(w, events), initial, ForeignView(shadow, events), mine)
    decreases |events|
  {
    if events != [] {
      assert Stays(mine, events[0]);
      StepKeeps(w, events[0], initial, shadow, mine);
      RunKeeps(Apply(w, events[0]), events[1..], initial, ForeignStep(shadow, events[0]), mine);
    }
  }

  /** The node before first contact: nobody has recorded anything, the provider stays within its territory. */
  ghost predicate FirstContact(w: World, mine: Path -> bool) {
    && Territory(mine) && LastApplied(w.server).Nothing? && w.prepared.None?
    && forall p <- w.provider :: mine(p) || Bookkeeping(p)
  }

  /** The provider's node when it was last applied, read off the events: `provider` is its node at the start,
      `applied` the one applied before. */
  function LastAppliedNode(provider: Tree, applied: Option<Tree>, events: seq<Event>): Option<Tree>
    decreases |events|
  {
    if events == [] then applied
    else LastAppliedNode(NextNode(provider, events[0]), NextApplied(provider, applied, events[0]), events[1..])
  }

  function NextNode(provider: Tree, e: Event): Tree {
    if e.Provide? then e.node else provider
  }

  function NextApplied(provider: Tree, applied: Option<Tree>, e: Event): Option<Tree> {
    if e == PatchNode(true) then Some(provider) else applied
  }

  /** What the annotations record is what was applied last. */
  ghost predicate RecordsApplied(server: Tree, applied: Option<Tree>) {
    LastApplied(server) == if applied.Some? then Applied(Wanted(applied.value)) else Nothing
  }

  lemma StepRecords(w: World, e: Event, initial: Tree, shadow: Tree, mine: Path -> bool, applied: Option<Tree>)
    requires Inv(w, initial, shadow, mine) && Enabled(w, e) && Stays(mine, e) && RecordsApplied(w.server, applied)
    ensures RecordsApplied(Apply(w, e).server, NextApplied(w.provider, applied, e))
  {
    if e.Foreign? {
      ForeignWriteKeepsPatch(w.provider, w.server, e.path, e.value, mine);
    } else if e == PatchNode(true) {
      PatchRecords(w.provider, w.server);
    }
  }

  lemma {:induction false} RecordHoldsLastApplied(w: World, events: seq<Event>, initial: Tree, shadow: Tree,
                                                  mine: Path -> bool, applied: Option<Tree>)
    requires Inv(w, initial, shadow, mine) && ValidRun(w, events) && AllStay(mine, events)
    requires RecordsApplied(w.server, applied)
    ensures RecordsApplied(Exec(w, events).server, LastAppliedNode(w.provider, applied, events))
    decreases |events|
  {
    if events != [] {
      var e := events[0];
      assert Stays(mine, e);
      StepKeeps(w, e, initial, shadow, mine);
      StepRecords(w, e, initial, shadow, mine, applied);
      RecordHoldsLastApplied(Apply(w, e), events[1..], initial, ForeignStep(shadow, e), mine,
                             NextApplied(w.provider, applied, e));
    }
  }

  /** What the patch of `t` leaves on the server: the provider's node, nothing of the node applied before that it
      dropped, nothing else in its territory that was not there before first contact, and foreign leaves as they
      were. */
  ghost predicate PatchLeaves(t: World, initial: Tree, applied: Tree, mine: Path -> bool)
    requires t.prepared.Some?
  {
    var after := ApplyPatch(t.server, t.prepared.value);
    && (forall p | Wants(t.provider, p) :: p in after && after[p] == t.provider[p])
    && (forall p | Wants(applied, p) && !Wants(t.provider, p) :: p !in after)
    && (forall p | p in after && mine(p) && p !in t.provider :: p in initial && after[p] == initial[p])
    && (forall p | !mine(p) && !Bookkeeping(p) :: SameAt(after, t.server, p))
  }

  lemma PatchAt(t: World, initial: Tree, shadow: Tree, mine: Path -> bool, p: Path)
    requires Inv(t, initial, shadow, mine) && t.prepared.Some?
    ensures var after := ApplyPatch(t.server, t.prepared.value);
            && (Wants(t.provider, p) ==> p in after && after[p] == t.provider[p])
            && (p in LastTree(t.server) && !Wants(t.provider, p) ==> p !in after)
            && (p in after && mine(p) && p !in t.provider ==> p in initial && after[p] == initial[p])
            && (!mine(p) && !Bookkeeping(p) ==> SameAt(after, t.server, p))
  {
    if Wants(t.provider, p) {
      PatchSets(t.provider, t.server, p);
    } else if !Bookkeeping(p) {
      assert p !in Target(t.provider);
      PatchElsewhere(t.provider, t.server, p);
      if !mine(p) {
        ForeignLeavesAreNotRecorded(t.server, initial, mine, p);
      }
    } else if p in LastTree(t.server) {
      RecordedLeavesAreMine(t.server, initial, mine, p);
    }
  }

  lemma PatchOfInv(t: World, initial: Tree, shadow: Tree, mine: Path -> bool, applied: Option<Tree>)
    requires Inv(t, initial, shadow, mine) && t.prepared.Some? && RecordsApplied(t.server, applied)
    ensures PatchLeaves(t, initial, if applied.Some? then applied.value else map[], mine)
  {
    var last := if applied.Some? then applied.value else map[];
    var after := ApplyPatch(t.server, t.prepared.value);
    assert LastTree(t.server) == Wanted(last);
    forall p | Wants(t.provider, p)
      ensures p in after && after[p] == t.provider[p]
    {
      PatchAt(t, initial, shadow, mine, p);
    }
    forall p | Wants(last, p) && !Wants(t.provider, p)
      ensures p !in after
    {
      WantedIsWants(last, p);
      PatchAt(t, initial, shadow, mine, p);
    }
    forall p | p in after && mine(p) && p !in t.provider
      ensures p in initial && after[p] == initial[p]
    {
      PatchAt(t, initial, shadow, mine, p);
    }
    forall p | !mine(p) && !Bookkeeping(p)
      ensures SameAt(after, t.server, p)
    {
      PatchAt(t, initial, shadow, mine, p);
    }
  }

  /** Over any run from first contact, with writes of others anywhere outside the provider's territory, even
      between Get and Patch: foreign leaves are as the others left them; and right after a patch the territory
      holds the provider's node, everything dropped since the node applied last is gone, and any other leaf in it
      has been there, untouched, since before first contact. */
  lemma OwnershipOverRuns(w: World, events: seq<Event>, mine: Path -> bool)
    requires FirstContact(w, mine) && ValidRun(w, events) && AllStay(mine, events)
    ensures var t := Exec(w, events);
            var applied := LastAppliedNode(w.provider, None, events);
            && (forall p | !mine(p) && !Bookkeeping(p) :: SameAt(t.server, ForeignView(w.server, events), p))
            && RecordsApplied(t.server, applied)
            && (t.prepared.Some? ==>
                  PatchLeaves(t, w.server, if applied.Some? then applied.value else map[], mine))
  {
    RunKeeps(w, events, w.server, w.server, mine);
    RecordHoldsLastApplied(w, events, w.server, w.server, mine, None);
    var t := Exec(w, events);
    if t.prepared.Some? {
      PatchOfInv(t, w.server, ForeignView(w.server, events), mine, LastAppliedNode(w.provider, None, events));
    }
  }

  lemma RecordedLeavesAreMine(server: Tree, initial: Tree, mine: Path -> bool, p: Path)
    requires Territory(mine) && Holds(server, initial, mine) && p in LastTree(server)
    ensures mine(p) && !Bookkeeping(p)
  {
  }

  // ----- What the territory holds at any moment -----

  /** The node applied last, nothing before first contact. */
  function AppliedNode(applied: Option<Tree>): Tree {
    if applied.Some? then applied.value else map[]
  }

  /** Some applied patch among the events carried `p` or removed the condition that `p` belongs to. */
  predicate Touched(provider: Tree, applied: Option<Tree>, events: seq<Event>, p: Path)
    decreases |events|
  {
    events != [] &&
    (|| Touches(provider, applied, events[0], p)
     || Touched(NextNode(provider, events[0]), NextApplied(provider, applied, events[0]), events[1..], p))
  }

  predicate Touches(provider: Tree, applied: Option<Tree>, e: Event, p: Path) {
    e == PatchNode(true) && (Wants(provider, p) || DropsKind(AppliedNode(applied), provider, p))
  }

  /** `p` is on the node exactly if it was applied last, or was there initially and has not been touched. */
  ghost predicate Accounted(server: Tree, initial: Tree, applied: Option<Tree>, touched: bool, p: Path) {
    && (Wants(AppliedNode(applied), p) ==> touched)
    && (p in server <==> Wants(AppliedNode(applied), p) || (p in initial && !touched))
  }

  lemma LastTreeIsApplied(server: Tree, applied: Option<Tree>, p: Path)
    requires RecordsApplied(server, applied)
    ensures p in LastTree(server) <==> Wants(AppliedNode(applied), p)
    ensures p in LastTree(server) ==> LastTree(server)[p] == AppliedNode(applied)[p]
    ensures p.Condition? ==> (HasCondition(LastTree(server), p.kind) <==> HasCondition(AppliedNode(applied), p.kind))
  {
    if applied.Some? && p.Condition? && HasCondition(applied.value, p.kind) {
      var q :| q in applied.value && q.Condition? && q.kind == p.kind;
      assert q in LastTree(server);
    }
  }

  lemma StepAccounts(w: World, e: Event, initial: Tree, shadow: Tree, mine: Path -> bool, applied: Option<Tree>,
                     touched: bool, p: Path)
    requires Inv(w, initial, shadow, mine) && Enabled(w, e) && Stays(mine, e) && mine(p)
    requires RecordsApplied(w.server, applied) && Accounted(w.server, initial, applied, touched, p)
    ensures Accounted(Apply(w, e).server, initial, NextApplied(w.provider, applied, e),
                      touched || Touches(w.provider, applied, e, p), p)
  {
    if e == PatchNode(true) {
      LastTreeIsApplied(w.server, applied, p);
      if Wants(w.provider, p) {
        PatchSets(w.provider, w.server, p);
      } else {
        PatchElsewhere(w.provider, w.server, p);
      }
    }
  }

  lemma {:induction false} RunAccounts(w: World, events: seq<Event>, initial: Tree, shadow: Tree, mine: Path -> bool,
                                       applied: Option<Tree>, touched: bool, p: Path)
    requires Inv(w, initial, shadow, mine) && ValidRun(w, events) && AllStay(mine, events) && mine(p)
    requires RecordsApplied(w.server, applied) && Accounted(w.server, initial, applied, touched, p)
    ensures Accounted(Exec(w, events).server, initial, LastAppliedNode(w.provider, applied, events),
                      touched || Touched(w.provider, applied, events, p), p)
    decreases |events|
  {
    if events != [] {
      var e := events[0];
      assert Stays(mine, e);
      StepKeeps(w, e, initial, shadow, mine);
      StepRecords(w, e, initial, shadow, mine, applied);
      StepAccounts(w, e, initial, shadow, mine, applied, touched, p);
      RunAccounts(Apply(w, e), events[1..], initial, ForeignStep(shadow, e), mine,
                  NextApplied(w.provider, applied, e), touched || Touches(w.provider, applied, e, p), p);
    }
  }

  /** At every moment of every run from first contact, a leaf of the provider's territory is on the node if and only
      if it belongs to the node applied last, or was on the node before first contact, for instance because the
      controller created it, and no applied patch has carried it or removed its condition. Its value is then the
      applied one or the initial one. */
  lemma TerritoryExactly(w: World, events: seq<Event>, mine: Path -> bool, p: Path)
    requires FirstContact(w, mine) && ValidRun(w, events) && AllStay(mine, events) && mine(p)
    ensures var server, last := Exec(w, events).server, AppliedNode(LastAppliedNode(w.provider, None, events));
            && (p in server <==> Wants(last, p) || (p in w.server && !Touched(w.provider, None, events, p)))
            && (p in server ==>
                  if Wants(last, p) then server[p] == last[p] else p in w.server && server[p] == w.server[p])
  {
    RunKeeps(w, events, w.server, w.server, mine);
    RecordHoldsLastApplied(w, events, w.server, w.server, mine, None);
    RunAccounts(w, events, w.server, w.server, mine, None, false, p);
    LastTreeIsApplied(Exec(w, events).server, LastAppliedNode(w.provider, None, events), p);
  }

  /** Exactly which leaves that the provider does not want survive a patch. */
  lemma LeftoverIffUntouched(w: World, events: seq<Event>, mine: Path -> bool, p: Path)
    requires FirstContact(w, mine) && ValidRun(w, events) && AllStay(mine, events)
    requires mine(p) && Exec(w, events).prepared.Some? && p !in Exec(w, events).provider
    ensures var t, applied := Exec(w, events), LastAppliedNode(w.provider, None, events);
            p in ApplyPatch(t.server, t.prepared.value) <==>
              p in w.server && !Touched(w.provider, None, events, p) && !DropsKind(AppliedNode(applied), t.provider, p)
  {
    RunKeeps(w, events, w.server, w.server, mine);
    RecordHoldsLastApplied(w, events, w.server, w.server, mine, None);
    RunAccounts(w, events, w.server, w.server, mine, None, false, p);
    LastTreeIsApplied(Exec(w, events).server, LastAppliedNode(w.provider, None, events), p);
    PatchElsewhere(Exec(w, events).provider, Exec(w, events).server, p);
  }
}
