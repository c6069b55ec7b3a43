# Virtual Kubelet: a verified model of its concurrent core

Virtual Kubelet makes a provider look like a node of a Kubernetes cluster. Most of the repository is plumbing around
a few small protocols that have to be right under concurrency and failures, and around a small language for
environment variables. This project models those parts in Dafny and proves what they are for.

| files | what they model |
|---|---|
| `pods.dfy`, `known_pods.dfy` | the pod fields that the controller reads, the per-pod record, and the three critical sections under its lock |
| `pod_status_protocol.dfy` | status reconciliation of one pod as a step system: API server, watch, informer cache, handler queue, provider callbacks, status worker |
| `pod_status_convergence.dfy`, `pod_status_progress.dfy`, `pod_status_deletion.dfy`, `pod_handler_safety.dfy` | no status is lost; every schedule comes to agreement, which lasts; when a deletion reaches the API server; the handlers never fail; exactly from which states the worker can |
| `pod_sync.dfy` | image and pod comparison, `syncPodInProvider`, `createOrUpdatePod` |
| `lease.dfy` | the lease on a versioned server with arbitrary other writers and lost messages, and the lease controller |
| `node_patch.dfy` | the three-way patch of the node object and its bookkeeping annotations |
| `monitor.dfy` | the monitor variable, its subscriptions, and the ping result read through it |
| `retry_queue.dfy` | retry accounting over the rate limiter that the pod queues share |
| `expansion.dfy`, `expansion_laws.dfy` | the `$(NAME)` scanner, the token semantics that it refines, and the laws of that semantics |
| `environment.dfy`, `environment_laws.dfy` | building a container's environment, and what it does and does not depend on |
| `streams.dfy` | the rendezvous with the streams of an exec or attach client |
| `sync_wrapper.dfy` | the polling wrapper for providers without notifications, and its deletion markers |

Code that updates state in place is modelled by classes and methods with loops, each proved against a function or
predicate over values; protocols are step systems whose runs are sequences of events. What the environment decides
(other API clients, lost messages, provider answers, map iteration order, time) is a parameter or a
nondeterministic choice, and the theorems hold for all of it.

## How the main results fit together

**Pod status.** `PodStatusConvergence.StepKeeps` is the inductive invariant of one pod lifetime, including the gap
between the lister read (`List`), loading the record (`Acquire`) and taking its lock (`Lock`). `NoStatusLost` is the
safety claim: once the update handler has been shown the current object and the key is at rest, the API status is
the last one that the provider sent. `EveryScheduleAgrees` is the progress claim: once the outside world is silent,
the steps that are left stop within an explicit measure in whatever order they are taken, and after one redelivery
they stop in agreement; `SettledForever` says that agreement lasts. `GapLosesStatusUntilRedelivery` shows that
redelivery is needed: the worker can decide on a lister read that the informer has overtaken before the lock is
taken, the update notification passes while the skip flag is still down, and the API server keeps an outdated status
with every queue empty. `LostIffLastSkipWasStale` says that this is the only cause of a loss, and
`RedeliveryFindsExactlyTheLost` that redelivery queues exactly the keys concerned.

**Crashes.** `CanCrashIffNotNilSafe` divides all states of the status protocol into those from which the worker can
dereference a nil status and those from which it cannot, and `ReplacementCrashesIffDangerous` reads off it when a
record may be replaced.

**Leases.** `LeaseServer.StoreOk` holds at every moment of every schedule: the controller's writes differ from the
version they replace only in the version, the renew time and an owner list that was empty, because every copy that
the controller keeps matches the server's history at its resource version. `Controller.Sync` adds convergence: at
most four foreign updates that fall into the sync cannot prevent the renewal if no message is lost and nobody deletes
the lease during the sync, whatever comes after it. The hypothesis is on the schedule alone: its calm beginning
(`HeadLength`, `HeadPuts`) has to be long enough. The bound of four is sharp; five well-placed updates can prevent it.

**Node.** `NodeOwnership.OwnershipOverRuns` compares the node with the one that the other writers alone would have
produced (`ForeignView`), and the recorded state with the node that the events say was applied last
(`LastAppliedNode`), for every run that starts before first contact. `TerritoryExactly` says of every leaf that the
provider may use whether it is on the node, at every moment of such a run.

**Streams.** Counting replies is enough exactly for the clients that `SafeIffRequestedComeInTime` describes by the
order in which they open their streams.

**Environment.** `Expand` refines `Meaning`, a recursive token semantics, which five equations determine. The environment of a container is a
left-to-right fold over it, and `FinalValue` names the entry or source that decides each variable.

## Behaviour of the code that the model brings out

- A successful `UpdatePod` replaces the record with an empty one; if the key is then in the status queue, in the
  hands of the worker, or about to be enqueued by a callback, the worker can dereference a nil status
  (`CrashIsReachable`, `ReplacementCrashesIffDangerous`).
- A status can stay unwritten until the next resync or change (`GapLosesStatusUntilRedelivery`).
- A pod that goes away in the provider is deleted on the API server only if its last status had already arrived; if
  the deletion mark comes together with a new status, it is lost, and no redelivery repairs that
  (`DeletionArrivesIff`, `RedeliveryIsIdle`).
- A pod that is being deleted and has no running container is never deleted in the provider by a sync
  (`DeletionReachesProvider`).
- A key that always fails in one queue is retried without bound if it succeeds in another in between, because
  success resets the shared count (`SharedLimiterRetriesForever`); what it can gain that way is bounded by the
  number of resets (`WholeRunBound`).
- The image comparison looks in one direction only. Whenever two containers share an image, giving one of them
  another image is reported as a success and not passed on (`ImageUpdateLost`); with pairwise distinct images, and
  only then, no such update is lost (`ImageUpdatesReachIffDistinct`).
- A pod that was first seen in a terminal phase is never created if it turns out to be alive, because the comparison
  with the last pod used ignores the status (`TerminalRecordHidesPod`); exactly when a reported success leaves the pod
  in place is `SuccessMeansInPlace`.
- What the controller writes when it creates the node is not recorded, so a leaf that the provider drops before any
  patch with it was applied stays on the node (`LeftoverIffUntouched`).
- Two selected services that define a variable differently make the environment depend on the iteration order of a
  map (`ServiceEnvDeterminedIffAgree`).
- A client that opens too many streams before some requested one, by opening one twice or one that was not
  requested, can get a session without it, the error stream included (`CountingFailsIffEnoughBefore`).
- A container without any state still counts as running after the wrapper has declared its pod lost (`LostStatus`).
- A byte of 0x80 or above that follows `$` is re-encoded as UTF-8 (`IdentityIffFaithful`).

## Model

| member | source | states |
|---|---|---|
| `KnownPods.KnownPod.DecideStatusUpdate` | node/pod.go:248-259 | the worker's critical section: skip and raise the flag when the listed status equals the stored one and the stored pod is not being deleted, else lower the flag and overwrite with the listed UID; a nil stored status is a failure |
| `KnownPods.KnownPod.RecordProviderStatus` | node/pod.go:359-367 | the callback's critical section: the stored pod becomes the reported one, and the key is enqueued exactly when that changes it |
| `KnownPods.KnownPod.ObserveUpdate` | node/podcontroller.go:318-329 | the update handler's critical section: it enqueues and lowers the flag exactly when the flag is up and the seen status differs from the stored one |
| `KnownPods.KnownPod.constructor` | node/podcontroller.go:146-153 | a new record holds no status, no pod last used, and the flag down |
| `PodStatusProtocol.PodArrives` | node/podcontroller.go:295-301 | creation, watch delivery and the add handler form a run that ends with one empty record and a cache equal to the API object |
| `PodStatusConvergence.NotifyKeeps` | node/pod.go:301-368 | every step of every provider callback in flight keeps the lifetime invariant |
| `PodStatusConvergence.HandleKeeps` | node/podcontroller.go:302-335 | every handled notification keeps the lifetime invariant and the last status |
| `PodStatusConvergence.ReadKeeps` | node/pod.go:231-259 | reading the lister, loading the record and deciding under the lock, with anything in between, keeps the lifetime invariant |
| `PodStatusConvergence.CallKeeps` | node/pod.go:261-297 | the API calls of the worker, successful or failed after being applied or not, keep the lifetime invariant |
| `PodStatusConvergence.StepKeeps` | node/pod.go:231-398 | every orderly step of every actor keeps the lifetime invariant |
| `PodStatusConvergence.RunKeeps` | node/pod.go:231-398 | the lifetime invariant holds after every orderly run |
| `PodStatusConvergence.RecordHoldsLastSent` | node/pod.go:359-367 | after any orderly run the record holds the pod of the last callback that took its lock |
| `PodStatusConvergence.NoStatusLost` | node/pod.go:231-297 | when the update handler has been shown the current object and the key has come to rest, the API status is the last status sent, despite a stale cache |
| `PodStatusConvergence.SettledForever` | node/pod.go:231-297 | once the last status has arrived, no stale cache, retry or wakeup changes the API status until the provider sends another |
| `PodStatusConvergence.LostIffLastSkipWasStale` | node/pod.go:239-259 | for every orderly run that starts with the flag down and comes to rest, whatever is still undelivered: a status is lost if and only if the last decision was to skip on a listed status other than the API's |
| `PodStatusProgress.ClosingStepDescends` | node/pod.go:231-297 | with no new status, other client, redelivery or failed call, every step of worker, callbacks and informer decreases a measure |
| `PodStatusProgress.ClosingRunsAreBounded` | node/pod.go:231-398 | hence every such run is no longer than the measure |
| `PodStatusProgress.StuckIffAtRest` | node/pod.go:370-398 | such a run can stop only when nothing is queued, in process, stored but not enqueued, or undelivered |
| `PodStatusProgress.RedeliveryThenAnySchedule` | node/podcontroller.go:302-335 | from rest, after a redelivery, every schedule stops within 70 steps and leaves the last status on the API server |
| `PodStatusProgress.EveryScheduleAgrees` | node/pod.go:231-297 | the same from every state of the lifetime, callbacks in flight included, for all schedules before and after the redelivery |
| `PodStatusProgress.AgreementIsReachable` | node/podcontroller.go:302-335 | from every state of the lifetime some orderly schedule leads to rest with the API status equal to the last one sent |
| `PodStatusDeletion.DeletionArrivesIff` | node/pod.go:253-277 | for every schedule of a due pass that runs until it stops: the API pod ends up being deleted if and only if it was already, or it is alive, the provider's pod is being deleted and their statuses agree; otherwise the mark is lost with the skip flag down |
| `PodStatusDeletion.RedeliveryIsIdle` | node/podcontroller.go:318-329 | with the skip flag down a redelivery at rest changes nothing |
| `PodStatusConvergence.LifetimeBegins` | node/podcontroller.go:295-301 | a pod created in a non-terminal phase starts a lifetime when its add handler has run |
| `PodStatusConvergence.GapLosesStatusUntilRedelivery` | node/pod.go:239-259 | an orderly run ends at rest with nothing left to deliver and an API status that is not the last one sent |
| `PodStatusConvergence.RedeliveryFindsExactlyTheLost` | node/podcontroller.go:318-329 | at rest with nothing left to deliver, redelivering the cached object queues the key if and only if the API status is not the last one sent, and then the skip flag is up |
| `PodHandlerSafety.HandlersNeverFail` | node/podcontroller.go:294-345 | whatever the other actors do, record replacements included, the update handler finds its key and never meets the flag without a status |
| `PodHandlerSafety.HandlersNeverFailFromStart` | node/podcontroller.go:302-335 | from the empty start, neither the panic nor the nil dereference of the update handler is reached |
| `PodHandlerSafety.KnownIffPresent` | node/podcontroller.go:295-345 | over every run without a successful UpdatePod there is a record exactly while the handled notifications say that the pod exists |
| `PodHandlerSafety.TerminalPodsAreLeftAlone` | node/pod.go:226-234 | over every run the worker decides and calls only on the basis of a pod that it listed in a phase other than Succeeded and Failed |
| `PodHandlerSafety.QuietRunsNeverCrash` | node/pod.go:248-249 | from a safe state the worker never dereferences a nil status if records are replaced only while nothing is under way for the key |
| `PodHandlerSafety.CanCrashIffNotNilSafe` | node/pod.go:231-259 | of all states, the safe ones are exactly those from which no such run reaches the nil dereference |
| `PodHandlerSafety.ReplacementCrashesIffDangerous` | node/pod.go:104-108 | in every state, a replacement can lead to the crash if and only if the key is queued, the worker is in a pass that is not about to skip, or a callback is in flight that has changed or will change its record |
| `PodHandlerSafety.CrashIsReachable` | node/pod.go:248-249 | the crash is reachable from the empty start |
| `PodSync.ContainersImageEqual` | node/pod.go:144-158 | true exactly when every image of the first list occurs in the second |
| `PodSync.CoveredTransitive` | node/pod.go:144-158 | the one-sided check is reflexive and transitive |
| `PodSync.CoveredIffPermutation` | node/pod.go:144-158 | on lists of equal length, the first without repetition, the check holds if and only if the lists are permutations of each other |
| `PodSync.ImageCheckExactIffDistinct` | node/pod.go:144-158 | the check tells permutations from all other lists of the same length if and only if the first list has no repetition |
| `PodSync.CoveredSymmetric` | node/pod.go:144-158 | on such lists the check is symmetric |
| `PodSync.ComparePods` | node/pod.go:125-142 | pods count as equal exactly when images and init images are covered and deadline, tolerations, labels and annotations agree |
| `PodSync.IsRunning` | node/podcontroller.go:632-640 | true exactly when some container is neither terminated nor waiting |
| `PodSync.Controller.CreateOrUpdatePod` | node/pod.go:59-121 | the provider's pod, the calls made and the record afterwards: unchanged if equal, replaced by an empty record after an update, kept after a create, all unchanged after a failure |
| `PodSync.Controller.SyncPodInProvider` | node/podcontroller.go:464-528 | refines the value-level sync, including that the pod last used is noted in the old record object after an update |
| `PodSync.RepeatedSyncIsIdempotent` | node/podcontroller.go:478-527 | any number of syncs of effectively equal live pods, with any failures, makes at most one successful call, and none if the pod is in place |
| `PodSync.RunsKeepRecordTrue` | node/podcontroller.go:478-527 | over all runs, a pod noted as last used is in place, or gone from the provider if it was being deleted, or terminal |
| `PodSync.SuccessMeansInPlace` | node/podcontroller.go:478-527 | after any history a successful sync of a live pod leaves it in place if and only if it was in place, or there is a record that does not note its own terminal state; otherwise it changes nothing |
| `PodSync.InPlaceIffMatches` | node/pod.go:125-142 | a pod is in place exactly if labels, annotations, deadline and tolerations agree and every image held is wanted; exactly otherwise a sync calls the provider |
| `PodSync.CallsSuitProvider` | node/pod.go:92-121 | a sync creates only what is not held, updates only what is, passes on the pod with its resolved environment, notes the pod in the record, and leaves an empty record after an update |
| `PodSync.FailsIff` | node/podcontroller.go:478-527 | exactly when a sync reports an error, and that it then changes nothing |
| `PodSync.DeletionReachesProvider` | node/podcontroller.go:466-513 | after any history a successful sync of a deleting pod leaves nothing in the provider if and only if nothing was there, or there is a record and a container counts as running; and exactly when it makes the call |
| `PodSync.RepeatedDeletionIsIdempotent` | node/podcontroller.go:478-513 | any number of syncs of the same deleting pod make at most one successful call, a deletion |
| `PodSync.TerminalRecordHidesPod` | node/podcontroller.go:615-627 | the exception is reachable: the live pod is never created |
| `PodSync.ImageUpdateLost` | node/pod.go:144-158 | for every list with a repeated image, giving one of the equal images any other value is reported as a success and not passed on to the provider |
| `PodSync.ImageUpdatesReachIffDistinct` | node/pod.go:92-121 | every list of images of the same length that is no permutation reaches the provider if and only if the images that it holds are pairwise distinct |
| `LeaseServer.ExternalsOk` | node/lease_controller_v1.go:136-160 | writes of others keep the history consistent and extend it |
| `LeaseServer.PerformOk` | node/lease_controller_v1.go:233-260 | an accepted update of a held copy overwrites the version that it was copied from, and only renews it |
| `LeaseServer.CallOk` | node/lease_controller_v1.go:199-260 | the same across foreign writes, lost requests and writes applied whose reply was lost |
| `LeaseServer.CalmExternals` | node/lease_controller_v1.go:233-260 | foreign updates leave a lease in place, with a version newer than any held copy |
| `LeaseController.NewLease` | node/lease_controller_v1.go:264-306 | a copy differs from its base at most in renew time and owners where there were none; a new lease is named after the node, held and owned by it; the result is renewed now and has an owner |
| `LeaseController.CalmCall` | node/lease_controller_v1.go:199-260 | which replies are possible when others only update: a conflict on a current copy costs others a write |
| `LeaseController.Controller.EnsureLease` | node/lease_controller_v1.go:199-229 | returns the server's current lease, fetched or created for this node with a renew time of this call; fails only on a refused or lost call; undisturbed, a failure has cost the others a write |
| `LeaseController.Controller.BackoffEnsureLease` | node/lease_controller_v1.go:167-195 | retries until it has the current lease or the context is cancelled, within two calls and two more for every foreign write if the schedule starts with enough calm calls |
| `LeaseController.EnsuredAgain` | node/lease_controller_v1.go:167-195 | a failed attempt followed by another amounts to one attempt, because the failure has cost the others a write |
| `LeaseController.TurnWithConflict` | node/lease_controller_v1.go:250-254 | an update that meets a conflict, followed by a fetch, leaves a current copy at hand and has cost the others a write if the copy was current before |
| `LeaseController.Controller.TryUpdate` | node/lease_controller_v1.go:235-257 | one turn of the retry loop, undisturbed by losses and deletions: renewed, or cancelled, or the copy at hand is current again and the others have used up a write |
| `LeaseController.TurnKeeps` | node/lease_controller_v1.go:234-258 | after each turn the foreign writes used up are at least as many as the turns, and the calls made stay within the bound |
| `LeaseController.Controller.RetryUpdateLease` | node/lease_controller_v1.go:233-260 | from a current copy it fails only if cancelled, disturbed by a loss or a deletion, or if five foreign writes fell into it; it stays undisturbed if the schedule starts with enough calm calls; a write before every update makes it fail without writing |
| `LeaseController.Controller.EnsureAndUpdate` | node/lease_controller_v1.go:152-160 | the second part of a heartbeat renews the lease unless cancelled, disturbed, or five foreign writes fall into it; undisturbed it writes at most once |
| `LeaseController.Controller.Sync` | node/lease_controller_v1.go:107-161 | no write ever loses a foreign update; if the schedule starts with enough calls that meet no loss and no deletion, and at most four foreign updates among them, the lease is renewed from any cached state, within a bounded number of calls and whatever comes later; five can prevent it; a failed ping or a missing node writes nothing |
| `LeaseController.Controller.Run` | node/lease_controller_v1.go:102-105 | over any number of heartbeats every accepted write only renews what it replaces, and every heartbeat with a clean ping that starts with enough calm calls and at most four foreign updates among them renews the lease |
| `NodePatch.FirstContactDeletesNothing` | node/node.go:471-487 | without both annotations on the server the patch deletes nothing and keeps every leaf |
| `NodePatch.PrepareFailsIff` | node/node.go:478-487 | computing the patch fails exactly if both annotations are there and one of them cannot be read |
| `NodePatch.BookkeepingNeverNests` | node/node.go:491-507 | over any run, even with the server's node echoed back, the recorded state contains no bookkeeping key and no patch deletes one |
| `NodePatchObjects.SimplestObjectMetadata` | node/node.go:669-693 | the annotations are a new map without the bookkeeping keys; the labels are the provider's own map |
| `NodePatchObjects.PrepareThreewayPatch` | node/node.go:416-527 | refines the patch on values, fails on unreadable records, and modifies no existing map, the provider's annotations included |
| `NodeOwnership.ForeignWriteKeepsPatch` | node/node.go:416-527 | a write outside the provider's territory changes neither the recorded state nor the patch, even between Get and Patch |
| `NodeOwnership.PatchSets` | node/node.go:508-527 | every wanted leaf has the wanted value after the patch |
| `NodeOwnership.ProviderLeafReaches` | node/node.go:416-527 | every leaf that the provider reports, except the two bookkeeping annotations, is on the node after the patch with the provider's value |
| `NodeOwnership.SecondPatchIsEmpty` | node/node.go:508-527 | right after a patch the next one is empty |
| `NodeOwnership.PatchElsewhere` | node/node.go:508-527 | an unwanted leaf is on the node after a patch if and only if it was there, was not applied last, and does not belong to a condition that the patch drops |
| `NodeOwnership.PatchRecords` | node/node.go:491-507 | after a patch the recorded state decodes to exactly the provider's state |
| `NodeOwnership.PatchKeeps` | node/node.go:535-573 | a patch keeps the ownership invariant |
| `NodeOwnership.StepKeeps` | node/node.go:535-573 | every provider report, foreign write, Get, and applied or lost Patch keeps the ownership invariant |
| `NodeOwnership.RunKeeps` | node/node.go:366-401 | the ownership invariant holds after every run |
| `NodeOwnership.RecordHoldsLastApplied` | node/node.go:471-507 | over any run the annotations decode to the provider's node that was last applied according to the events |
| `NodeOwnership.OwnershipOverRuns` | node/node.go:535-573 | foreign leaves are as the others left them; after each patch the territory holds the provider's node, what it dropped since the node applied last is gone, and any other leaf in it predates first contact |
| `NodeOwnership.TerritoryExactly` | node/node.go:366-401 | at every moment of every run a leaf of the territory is on the node if and only if it was applied last, or was there before first contact and no applied patch carried it or dropped its condition; and with which value |
| `NodeOwnership.LeftoverIffUntouched` | node/node.go:276-306 | exactly which leaves that the provider does not want survive a patch, for instance from the node's creation |
| `Monitor.MonitorVariable.constructor` | internal/lock/monitor.go:8-14 | version 0, no value, an open channel |
| `Monitor.MonitorVariable.Set` | internal/lock/monitor.go:49-56 | the version grows by one, every subscription's channel is closed, none twice |
| `Monitor.MonitorVariable.Subscribe` | internal/lock/monitor.go:58-75 | the new subscription's channel is closed exactly when a value was set before |
| `Monitor.Subscription.NewValueReady` | internal/lock/monitor.go:83-88 | the returned channel is closed exactly when the last version read is below the current one |
| `Monitor.Subscription.Read` | internal/lock/monitor.go:90-100 | returns the current value and version and moves the subscription to the open channel |
| `Monitor.UnreadBeforeJoining` | internal/lock/monitor.go:58-75 | a subscriber that has not joined yet will find a value unread exactly when one was set |
| `Monitor.Run` | internal/lock/monitor.go:49-100 | after every sequence of Set, Subscribe and Value the version counts the Sets, reads return the latest value, and a channel is closed exactly when a Set follows the last read |
| `Monitor.GetResult` | node/node_ping_controller.go:105-114 | blocks exactly until a first ping result is set, then returns the latest; never an uninitialised value |
| `RetryQueue.RetriesAreBounded` | internal/queue/queue.go:165-196 | across all queues, every failing run without a reset uses up one unit of a budget |
| `RetryQueue.AtMostMaxRetriesPlusOne` | internal/queue/queue.go:165-196 | between two resets of a key, the second included, at most 21 runs fail in all queues together |
| `RetryQueue.WholeRunBound` | internal/queue/queue.go:165-196 | over any run the failing runs in all queues together are at most the budget at the start and 21 for every reset |
| `RetryQueue.CompletionSettlesKey` | internal/queue/queue.go:165-196 | what the end of a handler does to its key: after a success it is pending only if added meanwhile and its count is forgotten; after a failure below 20 it is pending and counted once more |
| `RetryQueue.OtherKeysKeepTheirPlace` | internal/queue/queue.go:60-72 | no event changes the place or the count of another key in any queue |
| `RetryQueue.EnqueuingAdds` | internal/queue/queue.go:60-68 | both kinds of enqueuing add the key, and only the rate-limited one counts it |
| `RetryQueue.SharedLimiterRetriesForever` | node/podcontroller.go:233-235 | a key that always fails in one queue fails any number of times if it succeeds in another in between |
| `RetryQueue.Queue.Enqueue` | internal/queue/queue.go:60-63 | the key is pending and its failure count grows by one |
| `RetryQueue.Queue.EnqueueWithoutRateLimit` | internal/queue/queue.go:65-68 | the key is pending and no count changes |
| `RetryQueue.Queue.HandleQueueItemObject` | internal/queue/queue.go:165-196 | after a failure the key is requeued and counted below 20, given up and forgotten otherwise; after a success it is forgotten |
| `RetryQueue.Queue.RunFailing` | internal/queue/queue.go:165-196 | a key that always fails runs 21 times less its count, at least once, and leaves the queue with its count forgotten |
| `RetryQueue.AlwaysFailing` | internal/queue/queue.go:60-68 | 20 runs after Enqueue, 21 after EnqueueWithoutRateLimit |
| `Expansion.ScanConsumesAll` | internal/expansion/expand.go:38-73 | the tokens of an input spell the input: every byte is consumed once |
| `Expansion.TryReadVariableName` | internal/expansion/expand.go:81-102 | reads the first token of the language: its text, whether it is a reference, and how far it reaches |
| `Expansion.Expand` | internal/expansion/expand.go:38-73 | the cursor and checkpoint loop computes the token semantics of its input for every mapping, with all slices in range |
| `ExpansionLaws.EscapeEquation` | internal/expansion/expand.go:81-85 | `$$` stands for `$` |
| `ExpansionLaws.ReferenceEquation` | internal/expansion/expand.go:86-95 | `$(x)` stands for what the mapping gives for x, up to the first `)`, and the rest is expanded by itself |
| `ExpansionLaws.UnclosedEquation` | internal/expansion/expand.go:86-97 | `$(` without a later `)` stands for itself, and what follows is expanded |
| `ExpansionLaws.BareEquation` | internal/expansion/expand.go:98-101 | `$` before any other byte stays, and the byte becomes its UTF-8 encoding |
| `ExpansionLaws.LiteralEquation` | internal/expansion/expand.go:38-73 | other bytes, a `$` at the end and the empty input stand for themselves; with the four equations above this determines the expansion of every input |
| `ExpansionLaws.ScanAppend` | internal/expansion/expand.go:38-102 | after a closed input the scan starts afresh |
| `ExpansionLaws.ExpandAppend` | internal/expansion/expand.go:38-73 | expanding a closed input followed by another is expanding both separately |
| `ExpansionLaws.OffendingSuffix` | internal/expansion/expand.go:81-102 | an input that is not closed is a closed part followed by a lone operator or an unclosed reference |
| `ExpansionLaws.ExpandAppendIffClosed` | internal/expansion/expand.go:38-73 | exactly the closed inputs can be expanded independently of what follows, for every suffix and mapping |
| `ExpansionLaws.EscapeRoundTrip` | internal/expansion/expand.go:81-102 | doubling every `$` protects any string from any mapping |
| `ExpansionLaws.UndefinedStays` | internal/expansion/expand.go:22-33 | a name that no map defines stays as its reference |
| `ExpansionLaws.FirstMapDecides` | internal/expansion/expand.go:22-33 | the first map that has a name decides it |
| `ExpansionLaws.ReferenceExpands` | internal/expansion/expand.go:38-102 | a reference expands to what the mapping gives for its name |
| `ExpansionLaws.IdentityIffFaithful` | internal/expansion/expand.go:81-102 | with nothing defined, expansion is the identity exactly when the scan meets no escape and no `$` before a byte outside ASCII |
| `ExpansionLaws.PlainBytesAreKept` | internal/expansion/expand.go:38-102 | in particular on inputs without adjacent `$$` and with only ASCII after `$` |
| `ExpansionLaws.UndefinedIdentityIffFaithful` | internal/expansion/expand.go:22-33 | the same identity law for every list of maps, the empty one included, that defines none of the names the input refers to |
| `ExpansionLaws.OperatorsStayLost` | internal/expansion/expand.go:81-102 | an operator lost to an escape is not made up for by the rest of the input |
| `ExpansionLaws.ExtraByteStays` | internal/expansion/expand.go:98-101 | a byte that the re-encoding adds is not absorbed by the rest of the input |
| `Environment.AddEntries` | internal/podutils/env.go:213-228 | one object contributes every valid prefixed name with its value, in whatever order the map yields them |
| `Environment.MakeEnvironmentMapBasedOnEnvFrom` | internal/podutils/env.go:173-292 | the fold over `.envFrom`: later sources win, unreadable optional ones are passed over, others are errors |
| `Environment.SelectServices` | internal/podutils/env.go:140-159 | refines the fold that chooses one service per name |
| `Environment.ServiceVars` | internal/podutils/env.go:161-168 | the result is the fold over the selected services in some visiting order, later services and later variables winning |
| `Environment.GetServiceEnvVarMap` | internal/podutils/env.go:128-170 | the same for the services selected from the listing |
| `Environment.GetEnvironmentVariableValue` | internal/podutils/env.go:337-485 | the value of one entry against the map built so far, skipped optional entries and errors included |
| `Environment.MakeEnvironmentMap` | internal/podutils/env.go:295-335 | the left-to-right fold of `.env` over `.envFrom`, over the services; the first error wins |
| `Environment.AddMissing` | internal/podutils/env.go:327-332 | services fill the gaps and overwrite nothing |
| `Environment.ListOf` | internal/podutils/env.go:112-120 | the emitted list has unique names and represents exactly the map |
| `Environment.PopulateContainerEnvironment` | internal/podutils/env.go:94-123 | the container's list represents exactly the final environment and `.envFrom` is emptied; on an error the container is untouched |
| `EnvironmentLaws.LastAssignedIsLast` | internal/podutils/env.go:316-325 | the entry that decides a name is the last one that assigns it |
| `EnvironmentLaws.FoldLookup` | internal/podutils/env.go:316-325 | the fold's value of a name is what its last assigning entry gave, else the starting value |
| `EnvironmentLaws.FinalValue` | internal/podutils/env.go:94-123 | what decides each name of the final environment: its last assigning `.env` entry, expanded against the entries before it; else `.envFrom`; else the services; skipped entries keep the earlier value |
| `EnvironmentLaws.LiteralIsExpanded` | internal/podutils/env.go:314-343 | a literal value is expanded with every name replaced by the container's own variable, else the service's, else left as its reference |
| `EnvironmentLaws.ReferenceValue` | internal/podutils/env.go:314-325 | a reference takes the value of the last earlier entry that assigns the name, else of `.envFrom`, else of the services; else it stays |
| `EnvironmentLaws.KeyReference` | internal/podutils/env.go:369-472 | a readable key is assigned, an unreadable optional one is passed over, any other makes the whole list fail with the reason |
| `EnvironmentLaws.OtherReference` | internal/podutils/env.go:355-366 | unsupported references are passed over; a field reference is assigned or fails |
| `EnvironmentLaws.SourceLookup` | internal/podutils/env.go:173-292 | the variables of `.envFrom` are exactly the valid prefixed names that some source provides, with the value of the last |
| `EnvironmentLaws.SourcesFailIff` | internal/podutils/env.go:173-292 | `.envFrom` fails exactly if a source that is not optional cannot be read |
| `EnvironmentLaws.FoldContinues` | internal/podutils/env.go:295-335 | an entry never sees a later one |
| `EnvironmentLaws.ResolveIgnores` | internal/podutils/env.go:337-343 | an entry's value depends only on the names that it mentions |
| `EnvironmentLaws.IndependentEntriesCommute` | internal/podutils/env.go:316-325 | neighbouring entries that do not mention each other may be exchanged anywhere in a list; only when both fail does the reported error change |
| `EnvironmentLaws.SelectIsChosen` | internal/podutils/env.go:140-159 | the selected service is the namespace's own, else the master service; a name is absent only if neither exists |
| `EnvironmentLaws.SelectionOrderIndependent` | internal/podutils/env.go:140-164 | every permutation of a listing with distinct namespaced names selects the same services |
| `EnvironmentLaws.OwnMasterWins` | internal/podutils/env.go:140-159 | with links enabled the pod namespace's own `kubernetes` service is selected |
| `EnvironmentLaws.ServiceEnvDeterminedIffAgree` | internal/podutils/env.go:161-168 | the service variables are the same for every visiting order if and only if the selected services agree on the final values of shared names |
| `EnvironmentLaws.OwnVarsLookup` | internal/podutils/env.go:166-168 | a service gives a name the value of its last occurrence in the service's list |
| `Environment.ContributionGrows` | internal/podutils/env.go:267-282 | handling one more key of an object adds its prefixed name, if valid, and disturbs no other, because prefixed keys stay distinct |
| `Streams.ExpectedStreams` | internal/kubernetes/remotecommand/httpstream.go:164-177 | the count is the number of distinct streams of the session |
| `Streams.WaitForStreams` | internal/kubernetes/remotecommand/httpstream.go:207-407 | the wait loop of all four versions refines the wait on values |
| `Streams.Rendezvous` | internal/kubernetes/remotecommand/httpstream.go:207-407 | for every version and interleaving, if each requested stream is opened at most once and no other, a successful wait has set exactly the requested streams: the error stream always, the others as asked for, resize only with a terminal and from the third version on |
| `Streams.StreamsAreLatestArrivals` | internal/kubernetes/remotecommand/httpstream.go:207-407 | after a successful wait every field holds the latest arrival of its type |
| `Streams.ReadyIffEnoughReplies` | internal/kubernetes/remotecommand/httpstream.go:207-250 | the wait succeeds exactly when enough replies are reported before the timer fires |
| `Streams.CountingFailsIffEnoughBefore` | internal/kubernetes/remotecommand/httpstream.go:207-407 | for every sequence of opened streams, some interleaving succeeds without a given requested stream if and only if as many accepted streams as the session has are opened before it |
| `Streams.SafeIffRequestedComeInTime` | internal/kubernetes/remotecommand/httpstream.go:164-182 | every successful wait has all requested streams if and only if each of them is opened before that many others |
| `Streams.ExtraStreamDefeatsCounting` | internal/kubernetes/remotecommand/httpstream.go:207-407 | a client that opens accepted streams and then the requested one can lose it exactly when the others are as many as the session has, repeated or not requested |
| `SyncWrapper.TerminatedStatus` | node/sync.go:76-89 | the status after a deletion terminates every container, so that none counts as running, whatever its state was |
| `SyncWrapper.LostStatus` | node/sync.go:189-208 | the status of a lost pod terminates the running containers; a container counts as running afterwards exactly if it had no state at all |
| `SyncWrapper.Wrapper.DeletePodKey` | node/sync.go:50-53 | removes the marker of that key only |
| `SyncWrapper.Wrapper.EndDelete` | node/sync.go:62-95 | a failure removes the marker; a success keeps it and emits the terminal status unless the pod is terminal |
| `SyncWrapper.Wrapper.UpdatePodStatus` | node/sync.go:150-215 | a known status is passed on; the lost status is emitted exactly when the provider has nothing, no marker is set, and the pod runs or is older than a minute |
| `SyncWrapper.MarkersAreLast` | node/sync.go:50-96 | a marker is set exactly when the last event that concerns it was a deletion request |
| `SyncWrapper.Wrapper.Do` | node/sync.go:50-215 | one event changes the markers and sends exactly the notices that it calls for |
| `SyncWrapper.Run` | node/sync.go:50-215 | over every run with any overlap of deletions, what each event sends is determined; a poll reports its pod as lost if and only if the provider has nothing to say about a pod that runs or is old enough and no deletion request is in force at that poll |

## Left out

- The native provider and its image pulling: operating-system processes, files and a JSON store.
- The internals of the client-go work queue, informers, the strategic merge patch library, singleflight and the service variable generator: they appear as small specifications (one worker per key, additions during processing are kept, a failure count per key, a merge by key, a list of variables per service).
- HTTP and websocket handling, the I/O of exec and attach, log options, TLS, the command line, tracing, logging and event recording.
- `errdefs`, the provider store, the resource manager and the mock provider: thin wrappers.
- Wall-clock time and context cancellation, except that a lease schedule that is used up stands for cancellation; `sync` of the lease controller after the context error of its ping result is not modelled.
- The ping loop and its timeout; only reading its result is modelled.
- The grace period that the status worker passes when it deletes a pod.
- Delayed force-deletion of pods and removal of dangling pods, which identify pods by name only; no claim is made about reuse of names.
- The status that the controller writes when the provider refuses a pod, which would be a second writer of the status; within a lifetime only the status worker writes it.
- Provider callbacks for pods that are not known yet: the code polls for the record and gives up; the model starts a callback when the record is there.
- Filtering of informer events by a user-supplied filter, and the decision whether an update also enqueues the pod for syncing.
- The order of a node's condition list, and the JSON form of single fields: a node is a set of leaves, with conditions merged by type.
- The retry of the node patch on a conflict: a refused patch is followed by another Get.
- Creation of the node after a failed first patch, beyond the leaves that it leaves behind.
- 64-bit wrap-around of the monitor's version.
- Validation of the lease duration in the lease controller's constructor, and the branch for a new lease without owners, which cannot be taken because a new lease always has one.
- The first version's reset of streams and the formats in which a final status is written to the error stream.
- Values taken from the pod's own fields: they are a parameter.
- LeaseController.Controller.BackoffEnsureLease: does not state how long it sleeps between attempts, since wall-clock time is left out.
- Environment.GetEnvironmentVariableValue: the value of a field reference comes from outside, and the recorded events are dropped.
- Monitor.Run: reads by a subscriber that has not subscribed are excluded, since the code offers no way to express them.
- LeaseController.Controller.Sync: convergence is stated for schedules whose calm beginning is long enough, or for syncs that use only calm calls and end before the schedule does; a schedule that is used up stands for a cancelled context.
