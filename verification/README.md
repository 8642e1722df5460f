# A model of zen-lead, with proofs

zen-lead routes each opted-in Service to a single leader pod. For a Service annotated
`zen-lead.io/enabled: "true"` its Service Director picks one Ready pod and keeps a second, selector-less
"leader Service" whose one EndpointSlice points at that pod. Beside it stand a small client library that
answers "am I the leader?" from a Lease, and a controller that keeps a Lease and a status for each
LeaderGroup. This project models the three and proves what they promise, and where a promise fails, on
exactly which inputs.

## How it is laid out

| file | contents |
|---|---|
| `Kube.dfy`, `Wrappers.dfy`, `Sorting.dfy` | the Kubernetes objects, the API store and its writes; options and results; sort.Slice |
| `Selection.dfy`, `Routing.dfy`, `OptedIn.dfy`, `Watches.dfy` | readiness and leader selection; ports and slice bodies; the opted-in cache; the watches |
| `Reconciling.dfy` | one whole reconcile as a function of the store, both caches and the API server's answers |
| `ServiceDirector.dfy` | the director as classes that change their fields in place, proved against those functions |
| `Runs.dfy` and, on top of it, `CacheTransparency.dfy`, `SteadyState.dfy`, `FailedWrites.dfy`, `Quiescence.dfy`, `Confinement.dfy`, `Publication.dfy` | runs whose reconciles each read one snapshot |
| `Interface.dfy`, `Remembered.dfy`, `Attachment.dfy`, `Outcomes.dfy` | the meaning of the answers, in the API's own keys and values: annotations, labels and conditions, the remembered leader, which Service a slice belongs to, when a reconcile reports success |
| `Interleaving.dfy` and, on top of it, `Provenance.dfy`, `Wakeups.dfy`, `CacheFollowing.dfy`, `FlapDamping.dfy`, `OverlookedLoss.dfy`, `SharedSlices.dfy`, `Unheard.dfy` | one worker per request, its API calls interleaved with changes, events, failures and crashes |
| `LeaderQuery.dfy` | the client library: the class, and the timed machine of concurrent callers |
| `LeaderGroups.dfy` | the LeaderGroup controller: the class, and its runs |
| `Example.dfy` | a concrete cluster that meets the theorems' hypotheses, and on which broken promises show |

API calls are modelled by their outcomes: a set of calls that fail after their retries, and the answers of
the lists, are parameters (`Answers`). The clock is a parameter too. A patch that changes nothing is no
write and announces nothing.

## What does not hold

The code decides; where its documentation promises more, a lemma states the difference.

- Failover takes about a second (README.md:414-426 of the repository), and the code means an unhealthy
  leader to be replaced immediately (line 383). If any call of the routing fails, with the leader-pod cache
  on, which is the default, the retry goes back to a target that is still Ready, such as a terminating pod
  (`FailedWrites.RetryRepeatsIffTargetNotReady` has the exact condition,
  `Example.RetryGoesBackToTheLeavingPod` a concrete cluster).
- Errors of reads during selection are swallowed. If the current leader's slice or pod cannot be read, a
  failover that is due does not happen, the reconcile succeeds, and before the next resync nothing asks for
  another one (`FailedWrites.FailedReadHidesFailover`, `FailedWrites.HiddenFailoverIsSilent`,
  `Example.HiddenFailoverKeepsTheLeavingPod`). If the read for stickiness fails, a healthy leader loses to
  the eldest pod (`FailedWrites.FailedStickyReadDropsTheLeader`, `Example.FailedStickyReadDropsHealthyLeader`).
  `FailedWrites.SelectionOfStoreIsRightIff` has the condition for all failures and caches together.
- Having no leader is a clean failure mode (README.md:412). If the ports of a source resolve neither for the
  pod it chose nor for its eldest Ready pod, of which there may be none, each reconcile creates the slice
  anew, and that wakes the source again, without end, even if a younger pod would serve
  (`Quiescence.UnresolvedSourceWakesItselfForever`, `Example.YoungerPodNeverServes`,
  `SteadyState.QuiescentIffPortsResolve`, `Example.UnresolvedNameIsWrittenAgain`).
- docs/ARCHITECTURE.md:137 says that without a leader the slice has zero endpoints; it has one, without address
  (`Runs.AddressedIffEveryPortResolves`).
- Reconciling a Service that is not opted in deletes any Service of the name `<service>-leader`, whoever
  made it (`Confinement.NotOptedInDeletesItsNamesake`).
- With a minimum ready duration the wanted leader changes with the clock alone, and no wakeup is
  scheduled for that; the source waits for the next change or for the resync of the informers, every ten
  minutes by the comment on line 1496 (`FlapDamping.ClockAloneChangesTheChoice`, `Unheard.RestLasts`,
  `Unheard.ResyncWakesEveryService`, `Example.DampedPodIsNeverPickedUp`).
- A minimum ready duration does not keep a pod from leading that loses readiness between the List of an
  attempt and its write (`FlapDamping.AcquisitionWaitsIffLostBeforeTheList`, `OverlookedLoss.LossIsOverlooked`,
  `Example.LostPodLeadsAtOnce`).
- The pod predicate rejects updates of labels alone. Until the next change or resync a leader that is
  relabelled out of its Service keeps the traffic (`Unheard.RelabelledLeaderKeepsTheTraffic`,
  `Example.RelabelledPodKeepsTheTraffic`), and a pod relabelled into a Service is not considered
  (`Unheard.NewcomerIsChosenIff`).
- An opted-in cache over its limit loses the pod events of the sources it leaves out
  (`OptedIn.PodsAreHeardIffUnderLimit`).
- Two sources that share a leader Service name can leave one pod's address with another pod's ports, as
  slices are merge-patched (`SharedSlices.SharedSliceIsWantedIff`, `Example.SharedSliceMixesPods`).
- The configured TTL of the leader-pod cache does not govern its entries; 30 s is fixed in the code
  (lines 448 and 578). The documented LRU order of the opted-in cache (docs/PERFORMANCE_TUNING.md:18) does not
  exist: a refresh dates all entries anew.
- The client's answer can be older than its two-second TTL, by the delay between reading the Lease and
  writing the cache (`LeaderQuery.BoundIsTight`), and a slow caller overwrites a newer answer
  (`LeaderQuery.OlderResultOverwritesNewer`).
- The status of a LeaderGroup whose Lease is renewed at a fraction of a second is written again on every
  reconcile in a later second, since Kubernetes stores a status time in whole seconds
  (`LeaderGroups.RestsIffRenewedOnTheSecond`).
- Two LeaderGroups of one component in a namespace take their Lease from each other for ever
  (`LeaderGroups.OtherGroupUnsettlesIffSameLease`, `LeaderGroups.SharedLeaseNeverSettles`,
  `LeaderGroups.TwoGroupsOfOneComponent`).

## Model

| member | source | states |
|---|---|---|
| `Selection.OlderIsStrictTotalOrder` | pkg/director/service_director.go:735-740 | the comparison given to the sort is a strict total order on pods of one namespace with different names |
| `Selection.SelectionIsDeterministic` | pkg/director/service_director.go:693-749 | without a sticky hit the leader is the one eligible pod senior to all other eligible ones, and there is none exactly when no pod is eligible |
| `Selection.SelectionIgnoresOrder` | pkg/director/service_director.go:645-750 | permuting the listed pods never changes the leader, sticky or not |
| `Routing.ResolutionIsAllOrNothing` | pkg/director/service_director.go:968-1022 | resolution succeeds iff every port is a number or is named by the leader with a positive first match; then length, order, names and protocols are kept and each target is that number |
| `Routing.ResolvedPortsAreNumbered` | pkg/director/service_director.go:1042-1062 | the branch for an unresolved named target is never reached from reconcileLeaderService |
| `OptedIn.UpdateForRefinesMap` | pkg/director/service_director.go:1699-1760 | a single-Service update is a map put for a source, a map removal for any other Service, and keeps names unique and selectors non-empty |
| `OptedIn.CacheKeepsTheLastWord` | pkg/director/service_director.go:1620-1760 | after any sequence of updates and refreshes the cache says of each Service what the last step concerning it said |
| `OptedIn.RefreshCoversAllIffUnderLimit` | pkg/director/service_director.go:1643-1683 | a refresh finds every source exactly when there are no more of them than the limit |
| `OptedIn.RequestsAreTheListingSources` | pkg/director/service_director.go:1555-1577 | a list in sync maps a pod, without duplicates, to exactly the sources whose own List would include it |
| `OptedIn.PodsAreHeardIffUnderLimit` | pkg/director/service_director.go:1665-1683 | after a refresh every pod that a source selects is mapped to it iff the sources are no more than the limit; what is left out is deaf |
| `Watches.NewSliceNamesItsSource` | pkg/director/service_director.go:1131-1144 | the labels of a new slice lead its events back to its source |
| `Watches.RejectedUpdatesLeaveAlike` | pkg/director/service_director.go:1423-1463 | any number of pod updates that the predicate rejects changes nothing the director looks at |
| `Watches.RejectedUpdatesKeepTheSlice` | pkg/director/service_director.go:1418-1472 | event-filter soundness: after any number of rejected updates of all pods, the same UID is selected and the same slice body written |
| `Reconciling.Choose` | pkg/director/service_director.go:375-452 | the chosen leader is one of the listed pods and Ready in that listing |
| `Reconciling.Reconcile` | pkg/director/service_director.go:228-516 | the store after a reconcile is the store before it with the reported writes applied in order |
| `Runs.ChooseIsChoice` | pkg/director/service_director.go:375-452 | if the cache entry, if any, agrees with the slice and the reads of slice and target succeed, the leader is read off the store: the healthy target stays, else the eldest eligible pod |
| `Runs.SelectionIsRightIff` | pkg/director/service_director.go:375-452 | whatever fails and is cached, the selection is what the store calls for iff not: the slice holds a pod other than the eldest, and stickiness is bypassed although the target is healthy or kept although it is not |
| `Runs.UnhealthyTargetLosesItsHold` | pkg/director/service_director.go:378-418 | a target that is terminating, not Ready or without address loses stickiness: the choice is the eldest eligible pod, and none iff none is eligible |
| `Runs.RouteWrites` | pkg/director/service_director.go:753-964 | routing touches only its leader Service and its slice, whatever fails; on success the slice carries the chosen pod and its ports, on an error the slice is unchanged or deleted |
| `Runs.AddressedIffEveryPortResolves` | pkg/director/service_director.go:772-816 | after success the slice has an address iff a pod with an address was chosen and every port resolves, also when the earlier delete failed |
| `Runs.StoreStaysWellFormed` | pkg/director/service_director.go:1075-1233 | after any step with any failures each slice has one endpoint, and its reference names a pod by the name and the UID that belong together |
| `Publication.ServiceAndSliceAgree` | pkg/director/service_director.go:818-950 | after success the two writes agree: the annotations name the pod the slice refers to, the slice's ports are the numbers the Service's ports target, the type is the source's or ClusterIP, and the switch is dated anew iff another pod leads |
| `Publication.NewInheritsAllButTracking` | pkg/director/metadata.go:45-75 | a new leader Service has each label and annotation of its source except the twelve that GitOps tools track, and is labelled as managed by zen-lead for its source |
| `Interface.NotStickyGetsTheEldest` | pkg/director/service_director.go:645-749 | annotated `zen-lead.io/sticky: "false"`, a source gets the eldest eligible pod in every reconcile, whatever fails and is cached |
| `Interface.StickyKeepsTheTarget` | pkg/director/service_director.go:647-691 | with any other value or none a listed target that is running, Ready, addressed and not terminating is chosen again |
| `Interface.StickyLeaderIff` | pkg/director/service_director.go:674-691 | the pod held is the first listed one of the UID in the first endpoint whose UID is that of a listed, Ready pod; there is none if no endpoint has such a UID |
| `Interface.NamedAsAnnotated` | pkg/director/service_director.go:1379-1412 | a valid name in `zen-lead.io/leader-service-name` is used; else the source's name with "-leader" if that is valid, else the bare name |
| `Interface.ReadyIff` | pkg/director/service_director.go:1337-1347 | a pod is Ready iff it is running and its first condition of type "Ready" is True |
| `Interface.ReadySinceIff` | pkg/director/service_director.go:1351-1358 | readiness dates from the first condition of type "Ready" that is True, and from no time iff none is |
| `Interface.OlderIff` | pkg/director/service_director.go:735-740 | a pod is senior if it was created earlier, or at the same time with the lesser name, compared at the first differing place |
| `Interface.FirstNamedIff` | pkg/director/service_director.go:1003-1022 | a port name stands for its first port, container by container, and for none iff no container has it |
| `Interface.SliceSays` | pkg/director/service_director.go:1065-1129 | address, family, node, reference and readiness of the one endpoint, for a leader with an address, without one, and for none |
| `Interface.UpdatePassesIff` | pkg/director/service_director.go:1423-1463 | a pod update is an event iff readiness, termination or address differ, or the phase does and one of the two is Failed or Succeeded |
| `Remembered.ReferencedPodIff` | pkg/director/service_director.go:555-585 | the current leader read off a slice is the pod of the first endpoint that names, by UID, a stored pod that can be read |
| `Remembered.SelectionIsRemembered` | pkg/director/service_director.go:375-452 | after a selection the cache holds the chosen leader's UID, for 30 s from now, unless its entry was just confirmed and stays; without a leader it holds nothing, unless neither entry nor slice could be asked; other entries stay |
| `Remembered.SweepRemovesTheExpired` | pkg/director/service_director.go:630-639 | a sweep removes the expired entries and no others, so no later lookup notices it |
| `Attachment.NewSliceIsAttached` | pkg/director/service_director.go:1131-1200 | a new slice is labelled `kubernetes.io/service-name` with, and owned by, the leader Service |
| `Attachment.AttachedOverRuns` | pkg/director/service_director.go:1131-1233 | over every run of whole reconciles each slice belongs to the Service of its name |
| `Attachment.EverySliceIsAttached` | pkg/director/service_director.go:1131-1233 | in every state of every interleaved run each slice is labelled for and owned by the Service of the name it is stored under |
| `Outcomes.RouteSucceedsIff` | pkg/director/service_director.go:753-964 | routing succeeds iff each call it makes does, the best-effort deletion excepted, and a source with a leader has a port |
| `Outcomes.SourceSucceedsIff` | pkg/director/service_director.go:228-516 | a reconcile of a source succeeds iff its names are valid, Service and pods are read, and routing succeeds |
| `Outcomes.SuccessMeansRouted` | pkg/director/service_director.go:228-516 | success means that the slice is there and carries the pod chosen among the listed ones |
| `Outcomes.NothingIsDoneUnread` | pkg/director/service_director.go:245-342 | without the Service, valid names or the pods nothing is written, and that is an error; a source without selector is none |
| `Outcomes.CleanupSucceedsIff` | pkg/director/service_director.go:1280-1334 | cleanup fails iff the deletion by name fails; deletions by label are best effort |
| `Outcomes.CleanupRemovesIff` | pkg/director/service_director.go:1280-1334 | exactly which Services cleanup removes, for any failures |
| `Outcomes.CacheAfterReconcile` | pkg/director/service_director.go:250-284 | what the opted-in cache says of each Service after a reconcile |
| `Outcomes.UninterruptedAttemptIsReconcile` | pkg/director/service_director.go:228-516 | a worker that nothing interrupts leaves store, caches and announced changes as the whole reconcile does, and its request is queued again iff the reconcile reports an error |
| `CacheTransparency.AgreementIsInductive` | pkg/director/service_director.go:519-641 | every step of a clean run keeps the cached UID and the slice's target UID equal wherever both exist |
| `CacheTransparency.OneReconcileIsTransparent` | pkg/director/service_director.go:375-452 | one reconcile with and without the cache selects the same leader and makes the same writes |
| `CacheTransparency.CacheIsTransparent` | pkg/director/service_director.go:519-641 | over any run, with any expiries and sweeps, a director with the cache selects the same leaders and leaves the same store as one without |
| `SteadyState.FitLeaderIsKeptThroughout` | pkg/director/service_director.go:654-691 | sticky stability: while the target stays listed, healthy and resolvable the slice keeps routing to it, whatever older pods appear and entries expire |
| `SteadyState.QuiescentIffPortsResolve` | pkg/director/service_director.go:789-950 | a second successful reconcile writes nothing exactly when the ports of the pod chosen first resolve |
| `SteadyState.CrashRestartEndsTheSame` | pkg/director/service_director.go:818-1233 | a crash after any write, a restart with empty caches and one more reconcile end in the very store of the uninterrupted reconcile |
| `FailedWrites.RetryRepeatsIffTargetNotReady` | pkg/director/service_director.go:445-481 | after a routing that failed in any of its calls the retry selects the same pod, or none, iff the first attempt was not leaving a target that is still Ready; otherwise it goes back to that target; without the cache it always repeats |
| `FailedWrites.SelectionOfStoreIsRightIff` | pkg/director/service_director.go:375-452 | the same on the stored pods: for any failing calls and any cache the selection is wrong iff the slice holds a listed, Ready pod that is not the eldest, and its health equals the bypass |
| `FailedWrites.FailedReadHidesFailover` | pkg/director/service_director.go:547-588 | with a cache that agrees and the read for stickiness in order, the selection is wrong iff a failover is due and the current leader is not read, be it the slice or the pod; then the target that should be replaced is kept |
| `FailedWrites.HiddenFailoverIsSilent` | pkg/director/service_director.go:547-588 | such a reconcile succeeds and routes to the target; where slice and leader Service were written for the target before it writes nothing, so nothing asks for another one before the next resync |
| `FailedWrites.FailedStickyReadDropsTheLeader` | pkg/director/service_director.go:662-691 | if the read for stickiness fails, whatever else does, the eldest eligible pod is chosen, which is as it should be iff no other healthy, listed pod is held |
| `Example.RetryGoesBackToTheLeavingPod` | pkg/director/service_director.go:445-481 | a concrete cluster on which the retry of a failed slice patch selects the terminating pod again |
| `Example.HiddenFailoverKeepsTheLeavingPod` | pkg/director/service_director.go:547-588 | a concrete cluster on which a failed read of the slice, or of its pod, keeps the terminating pod, with a reconcile that succeeds and writes nothing |
| `Example.FailedStickyReadDropsHealthyLeader` | pkg/director/service_director.go:662-691 | a concrete cluster on which a failed read moves the traffic from a healthy leader to an older, terminating pod |
| `Example.SharedSliceMixesPods` | pkg/director/service_director.go:1207-1216 | a run without failures of two sources under one leader name, after which the slice has the pod of one and the port of the other |
| `Example.DampedPodIsNeverPickedUp` | pkg/director/service_director.go:699-723 | a system at rest with flap damping whose one pod becomes eligible by the clock and is picked up by no run without a change from outside or a resync |
| `Example.RelabelledPodKeepsTheTraffic` | pkg/director/service_director.go:1423-1463 | a system at rest whose leader is relabelled out of the Service and keeps the traffic as long as no change from outside and no resync comes |
| `Example.LostPodLeadsAtOnce` | pkg/director/service_director.go:328-450 | a damped, timed run in which a pod loses readiness after the List and is the leader at the same instant |
| `Example.YoungerPodNeverServes` | pkg/director/service_director.go:789-816 | a concrete cluster that wakes itself for ever because the eldest Ready pod does not resolve, though a younger one does |
| `Example.YoungerPodCanBeTried` | pkg/director/service_director.go:228-516 | the hypotheses of self-waking are met there |
| `Example.ClusterIsConfined` | pkg/director/service_director.go:228-516 | the hypotheses of confinement can be met |
| `Example.UnresolvedNameIsWrittenAgain` | pkg/director/service_director.go:789-816 | a concrete cluster on which a second reconcile right after a successful one writes again |
| `Example.PlainReconcileIsPossible` | pkg/director/service_director.go:228-516 | the hypotheses of quiescence and of crash and restart are met by a reconcile that does write |
| `Example.ClusterIsFrozen` | pkg/director/service_director.go:1480-1500 | the hypotheses of the draining queue can be met |
| `Example.BootedIsSound` | pkg/director/service_director.go:1480-1500 | the hypotheses of the theorem on wakeups can be met |
| `FlapDamping.GainIsOwnPatch` | pkg/director/service_director.go:1207-1216 | under every interleaving a pod becomes the target only by the patch of its source's own worker, which had chosen it |
| `FlapDamping.EveryWorkerHasHistory` | pkg/director/service_director.go:328-450 | in every timed run a worker's leader is, since its List, the eldest eligible pod of that listing, or led in the meantime |
| `FlapDamping.GainIsEligible` | pkg/director/service_director.go:645-749 | a pod that acquires the lead was listed by that attempt, and chosen later as the eldest eligible pod of that listing |
| `FlapDamping.AcquisitionWaits` | pkg/director/service_director.go:328-450 | in interleaved runs with any failures, at least d lies between a moment without readiness, up to the List of the attempt, and the acquisition |
| `FlapDamping.AcquisitionWaitsIffLostBeforeTheList` | pkg/director/service_director.go:328-450 | if attempts take less than d from List to write, at least d lies between iff the loss is not later than the attempt's List; else at most the attempt's delay does |
| `FlapDamping.NextAcquisitionWaits` | pkg/director/service_director.go:328-450 | a loss that one acquisition overlooks keeps the next one waiting: its List comes after the first acquisition |
| `FlapDamping.FlapsAreBounded` | pkg/director/service_director.go:699-723 | acquisitions separated by losses of readiness in a window of length T number at most 1 + T/d and the losses that fall between List and write |
| `FlapDamping.FlapsComeInPairs` | pkg/director/service_director.go:699-723 | and at most 2 + 2 T/d in any case |
| `OverlookedLoss.LossIsOverlooked` | pkg/director/service_director.go:328-450 | from every damped source about to choose its one pod there is a run in which that pod loses readiness and acquires the lead at one instant, however large d |
| `FlapDamping.EldestChangesIffOvertaken` | pkg/director/service_director.go:699-749 | the eldest eligible pod of a listing is another one later iff a pod senior to it matures in between |
| `FlapDamping.ClockAloneChangesTheChoice` | pkg/director/service_director.go:645-749 | with pods and slice unchanged another pod is chosen later iff no target is held and a senior pod matures in between |
| `Unheard.RestLasts` | pkg/director/service_director.go:1480-1500 | a system at rest stays at rest, with the same store, through every run without change from outside and without resync |
| `Unheard.ResyncWakesEveryService` | pkg/director/service_director.go:1496 | the periodic resync wakes every Service, also at rest |
| `Unheard.ClockAloneUnsettlesASlice` | pkg/director/service_director.go:699-723 | a slice that the clock alone made wrong stays wrong until a change from outside or the next resync |
| `Unheard.RelabelledLeaderKeepsTheTraffic` | pkg/director/service_director.go:1423-1463 | after a relabelling of a healthy, sticky leader, which the predicate rejects, the slice is still what a reconcile would write iff the new labels match the selector, and stays as it is until a change from outside or the next resync |
| `Unheard.NewcomerIsChosenIff` | pkg/director/service_director.go:1423-1463 | after another pod is relabelled into the Service, which the predicate rejects too, a reconcile would choose it iff no target is held and it is eligible and senior to the pod chosen before; else as before |
| `Quiescence.LeaderNameIsValid` | pkg/director/service_director.go:1379-1412 | whatever the annotation says, the derived leader Service name of a validly named Service is valid |
| `Quiescence.NewLeaderServiceIsInert` | pkg/director/service_director.go:830-860 | a new leader Service is opted in like its source, has no selector, and is labelled for its source and no other |
| `Quiescence.TurnsDecrease` | pkg/director/service_director.go:1480-1500 | in a frozen cluster every handled request and every delivered event lowers a measure |
| `Quiescence.SelfTriggeredEventsDieOut` | pkg/director/service_director.go:1480-1500 | no run in a frozen cluster is longer than 5 times the unsteady sources plus twice the events plus the queue |
| `Quiescence.NotRestingCanMove` | pkg/director/service_director.go:1480-1500 | a controller with a queued request or an undelivered event always has a legal turn |
| `Quiescence.QueueDrains` | pkg/director/service_director.go:1480-1500 | from every state of a frozen cluster a run of at most that length ends with an empty queue and no event |
| `Quiescence.StuckMeansResting` | pkg/director/service_director.go:1480-1500 | a run that cannot be continued has ended there |
| `Quiescence.UnresolvedSourceWakesItselfForever` | pkg/director/service_director.go:789-816 | of three or more successive, successful reconciles all after the first wake the source again iff the ports resolve neither for the pod chosen first nor for the eldest Ready pod |
| `Quiescence.TargetlessWakensThroughout` | pkg/director/service_director.go:789-816 | with a slice without target and an eldest Ready pod that does not resolve every further reconcile wakes the source again |
| `Confinement.ReconcileIsConfined` | pkg/director/service_director.go:228-516 | whatever fails, a reconcile touches only objects under its request's leader name; for a leader Service's own request it does nothing |
| `Confinement.WritesStayConfined` | pkg/director/service_director.go:272-322 | over every run users' Services are never written and leader Services spawn none, given that leader names match no user's Service |
| `Confinement.OneLeaderServiceEach` | pkg/director/service_director.go:830-860 | in every such state a source has at most one Service labelled for it, under its leader name, and a leader Service has none |
| `Confinement.DeletedSourceIsCleanedUp` | pkg/director/service_director.go:1304-1328 | once a source is gone, a clean reconcile of its name removes its leader Service |
| `Confinement.NotOptedInDeletesItsNamesake` | pkg/director/service_director.go:1280-1303 | reconciling a Service that is not opted in deletes a Service iff it has the derived leader name, whoever made it |
| `Confinement.UserServiceIsDeleted` | pkg/director/service_director.go:1286-1303 | for instance a user's `web-leader` next to a bare `web` |
| `Interleaving.ReadThenSendIsWriteSlice` | pkg/director/service_director.go:1131-1233 | Get and write with nothing in between are the slice step of an uninterrupted reconcile |
| `SharedSlices.PatchIsWantedIff` | pkg/director/service_director.go:1207-1216 | a merge patch leaves the wanted body iff each field differs from the original or is already as wanted |
| `SharedSlices.ApproachGetsThere` | pkg/director/service_director.go:284-330 | the steps of a worker whose calls succeed lead from the queue to the point between its Get and its patch of the slice |
| `SharedSlices.SharedSliceIsWantedIff` | pkg/director/service_director.go:1131-1233 | after a run without failures in which two sources under one leader name patch the slice both had read, the slice is what the second wanted iff each field differs from what they read or is what the first wanted too |
| `Interleaving.NamesAreHeld` | pkg/director/service_director.go:228-516 | under every interleaving each worker acts for its own source and nobody else touches the slice it read |
| `Provenance.ProvenanceIsInductive` | pkg/director/service_director.go:753-964 | every step, failed or not, keeps the provenance of slices and workers, each slice accounted for by a List answer for a source of that very slice |
| `Provenance.EverySliceHasOneSource` | pkg/director/service_director.go:1025-1233 | in every reachable state each slice has one endpoint record with at most one address, and address, reference, node, ports and readiness come from one Ready pod of one List answer for a source whose leader Service name the slice bears |
| `Wakeups.RefreshUnderLimitIsReliable` | pkg/director/service_director.go:1519-1534 | a refresh under the lock and the limit meets what the proof asks of refreshes |
| `Wakeups.ChosenIsWantedOrAnnounced` | pkg/director/service_director.go:375-452 | a selection among pods that are still current, unless it misses a failover, gives the body that is wanted or one that changes the slice |
| `Wakeups.AttentionIsInductive` | pkg/director/service_director.go:284-330 | every step of any worker, user, event, refresh, sweep, resync or crash keeps each source queued, announced, in work to the right effect, or up to date |
| `Wakeups.NoLostWakeups` | pkg/director/service_director.go:1505-1578 | in every state of every run, with the leader cache on or off, a source whose slice is not what a reconcile would now write is queued, has an event under way that will queue it, or has a worker that will write just that or change the slice and so wake it |
| `Wakeups.RestMeansUpToDate` | pkg/director/service_director.go:1480-1500 | with an empty queue, no worker and no event, every source's slice is what a reconcile would write |
| `CacheFollowing.CacheFollowsIsInductive` | pkg/director/service_director.go:519-641 | under every interleaving each cached leader is the choice its worker is about to write, or agrees with the slice, as long as no worker fails that was leaving another target |
| `CacheFollowing.CarefulRunsMissNoFailover` | pkg/director/service_director.go:375-452 | then, and while the current leader can be read, no selection misses a failover, with the cache on or off |
| `CacheFollowing.CarefulRunsLoseNoWakeup` | pkg/director/service_director.go:1505-1578 | so such runs lose no wakeup |
| `Sorting.SortSlice` | pkg/director/service_director.go:735-740 | the result is a permutation in which no element is less than an earlier one |
| `ServiceDirectors.CheckReady` | pkg/director/service_director.go:1337-1347 | the loop finds the first Ready condition, and only for a running pod |
| `ServiceDirectors.GetReadySince` | pkg/director/service_director.go:1351-1358 | the loop finds the first Ready condition that is True |
| `ServiceDirectors.FilterEligible` | pkg/director/service_director.go:693-723 | the pods kept are exactly the listed ones that are Ready, and long enough |
| `ServiceDirectors.SelectEldest` | pkg/director/service_director.go:693-749 | filtering, sorting and taking the first gives the specified eldest pod |
| `ServiceDirectors.FindSticky` | pkg/director/service_director.go:674-691 | the nested loops find the sticky leader of the specification |
| `ServiceDirectors.FindNamedPort` | pkg/director/service_director.go:1003-1022 | the nested loops find the first container port of the name, and fail if it is not positive |
| `ServiceDirectors.ResolveServicePorts` | pkg/director/service_director.go:968-1000 | the appending loop resolves all ports or returns the first error and no ports |
| `ServiceDirectors.BuildLeaderService` | pkg/director/service_director.go:827-885 | the stepwise built Service is the specified one |
| `ServiceDirectors.ReviseLeaderService` | pkg/director/service_director.go:905-945 | the edits in place give the specified Service |
| `ServiceDirectors.BuildSliceBody` | pkg/director/service_director.go:1042-1129 | the stepwise built body is the specified one, and there is none if a target is still a name |
| `ServiceDirectors.CutIsRefresh` | pkg/director/service_director.go:1665-1683 | sorting and cutting what a scan found leaves the sources with unique names: all of them, or as many as the limit allows |
| `ServiceDirectors.ScanOptedIn` | pkg/director/service_director.go:1643-1683 | the scan loop, the sort and the cut meet the specification of a refresh; no source that is left out was scanned later than one that is kept |
| `ServiceDirectors.MatchRequests` | pkg/director/service_director.go:1555-1577 | the loop collects the specified requests in order |
| `ServiceDirectors.ServiceDirector.UpdateLeaderPodCache` | pkg/director/service_director.go:591-602 | for 30 s lookups of the key find the pod exactly as long as it is stored with its UID, if the cache is on; entries of other keys are as before |
| `ServiceDirectors.ServiceDirector.ClearLeaderPodCache` | pkg/director/service_director.go:605-612 | no lookup of the key finds a pod any more; entries of other keys are as before |
| `ServiceDirectors.ServiceDirector.CleanupLeaderPodCache` | pkg/director/service_director.go:630-639 | the loop drops exactly the expired entries |
| `ServiceDirectors.ServiceDirector.GetCurrentLeaderPod` | pkg/director/service_director.go:519-588 | the pod found and the cache left are those of the specification, on every path of hits, failures and stale entries |
| `ServiceDirectors.ServiceDirector.SelectLeaderPod` | pkg/director/service_director.go:645-750 | the pod selected is the specified one; bypassed, or annotated `zen-lead.io/sticky: "false"`, the eldest eligible one |
| `ServiceDirectors.ServiceDirector.ChooseLeader` | pkg/director/service_director.go:375-452 | the choice and the cache after it are those of the specification |
| `ServiceDirectors.ServiceDirector.ReconcileEndpointSlice` | pkg/director/service_director.go:1025-1233 | store, announced writes and error are those of the specification, for every failure; a new slice is labelled for and owned by the leader Service |
| `ServiceDirectors.ServiceDirector.PublishLeaderService` | pkg/director/service_director.go:772-945 | the same, for the leader Service with the deletion of the slice before it |
| `ServiceDirectors.ServiceDirector.ReconcileLeaderService` | pkg/director/service_director.go:753-964 | the same, for both writes |
| `ServiceDirectors.ServiceDirector.CleanupLeaderResources` | pkg/director/service_director.go:1280-1334 | the same, by name or by label |
| `ServiceDirectors.ServiceDirector.UpdateOptedInServicesCacheForService` | pkg/director/service_director.go:1699-1760 | the cache after the update in place is that of the specification |
| `ServiceDirectors.ServiceDirector.UpdateOptedInServicesCache` | pkg/director/service_director.go:1620-1694 | the namespace's list is replaced by what a refresh may leave, or kept if the List fails |
| `ServiceDirectors.ServiceDirector.MapPodToService` | pkg/director/service_director.go:1505-1578 | on an empty list a refresh comes first, and then the requests are exactly the sources that select the pod |
| `ServiceDirectors.ServiceDirector.Reconcile` | pkg/director/service_director.go:228-516 | store, both caches, announced writes and error are those of the specification, for every failure and answer; for a source there is no error iff the Service and its pods are read, its names are valid and each call of the routing succeeds |
| `LeaderQuery.Client.IsLeader` | pkg/client/client.go:88-166 | a fresh entry is answered as it is; otherwise the Lease in the namespace of the variable, whatever the file holds, or without a variable in that of a file of at most 256 bytes decides, by the pod's name with or without its UID, and is believed for two seconds; exactly when errors occur, which are never a yes and leave the cache alone |
| `LeaderQuery.Client.IsLeaderWithNamespace` | pkg/client/client.go:170-231 | the same with a given namespace, whose checks come before the cache |
| `LeaderQuery.Client.ClearCache` | pkg/client/client.go:235-239 | the cache is empty |
| `LeaderQuery.KeysAreCollisionFree` | pkg/client/client.go:187-190 | slash-free queries share a cache key only if they are the same query |
| `LeaderQuery.OwnKeyCollidesIffSlash` | pkg/client/client.go:91-96 | an unqualified pool name shares its key with a qualified query exactly if it contains a slash |
| `LeaderQuery.AnswersAreRecent` | pkg/client/client.go:139-165 | with any number of concurrent callers and clearings, each answer was so at an instant in (t - TTL - delay, t] |
| `LeaderQuery.ApartIffNoCommonHolder` | pkg/client/client.go:145-154 | two identities share no holder exactly if their plain and full forms are all different |
| `LeaderQuery.TwoLeadersMeanAChange` | pkg/client/client.go:139-165 | two yeses at one instant about one Lease mean that its holder changed within TTL + delay |
| `LeaderQuery.BoundIsTight` | pkg/client/client.go:157-163 | there is a run whose answer is as old as the bound allows |
| `LeaderQuery.OlderResultOverwritesNewer` | pkg/client/client.go:157-163 | there is a run in which a slow caller's yes replaces a newer no |
| `LeaderQuery.AloneIsOneCall` | pkg/client/client.go:88-166 | without other callers in between, the machine's steps are one call of the class, by the same clause as its methods |
| `LeaderGroups.ClaimSettles` | pkg/controller/leadergroup_controller.go:171-205 | claiming is idempotent, changes a Lease iff it was not claimed, and only its owners and labels |
| `LeaderGroups.OtherGroupUnsettlesIffSameLease` | pkg/controller/leadergroup_controller.go:88-127 | a clean reconcile of another active group unsettles a settled one iff both derive the same Lease name in one namespace |
| `LeaderGroups.SharedLeaseNeverSettles` | pkg/controller/leadergroup_controller.go:171-205 | two groups of one Lease, reconciled in turn, write it in every single reconcile for ever |
| `LeaderGroups.SettledContends` | pkg/controller/leadergroup_controller.go:88-127 | once one of two such groups is settled, the next reconcile of the other starts the contention |
| `LeaderGroups.TwoGroupsOfOneComponent` | pkg/controller/leadergroup_controller.go:88-127 | for instance two groups of component `db` that start from no Lease |
| `LeaderGroups.EqualMeansNothingToWrite` | pkg/controller/leadergroup_controller.go:308-330 | the comparison reports equal iff the version is the one recorded and the renew time a whole second, and then the projection changes only a transition time |
| `LeaderGroups.RunIsConsistent` | pkg/controller/leadergroup_controller.go:208-263 | along every run each stored status reflects the Lease at the version it records |
| `LeaderGroups.SkippedWritesAreNotNeeded` | pkg/controller/leadergroup_controller.go:208-330 | status-skip soundness, with the exact condition, for every reachable state and every version read, late or not |
| `LeaderGroups.ReconcileSettles` | pkg/controller/leadergroup_controller.go:88-127 | after any history one reconcile without failures leaves a claimed Lease and a status that reflects it |
| `LeaderGroups.RestsIffRenewedOnTheSecond` | pkg/controller/leadergroup_controller.go:254-263 | a further reconcile changes nothing iff the renew time is a whole second or the clock shows the second of the last transition |
| `LeaderGroups.EveryStatusReportsItsLease` | pkg/controller/leadergroup_controller.go:208-263 | in every reachable state the first LeaseReady condition of a written status is true with reason LeaseExists iff the Lease read had a holder, else false with reason NoHolder |
| `LeaderGroups.UpsertedChangesOne` | pkg/controller/leadergroup_controller.go:241-252 | a projection changes the first LeaseReady condition, or appends one, and no other condition |
| `LeaderGroups.NewLeaseSays` | pkg/controller/leadergroup_controller.go:130-168 | name `<component>-lease`, labels and owner of a new Lease; its duration and transitions are the group's settings in whole seconds, cut toward zero |
| `LeaderGroups.ReconcileAnswers` | pkg/controller/leadergroup_controller.go:51-127 | exactly when a reconcile succeeds, and that it asks for another look in ten seconds exactly for a group with a Lease |
| `LeaderGroups.DeletionTakesTheLeaseAlong` | pkg/controller/leadergroup_controller.go:270-290 | a deleted controller group takes its Lease along iff no call fails, and nothing else changes |
| `LeaderGroups.UpsertCondition` | pkg/controller/leadergroup_controller.go:241-252 | the loop replaces the first condition of the kind, or appends |
| `LeaderGroups.LeaderGroupReconciler.BuildLease` | pkg/controller/leadergroup_controller.go:130-168 | the stepwise built Lease is the specified one |
| `LeaderGroups.LeaderGroupReconciler.UpdateLeaseMetadata` | pkg/controller/leadergroup_controller.go:171-205 | the Lease is written exactly if it was not claimed |
| `LeaderGroups.LeaderGroupReconciler.UpdateStatusFromLease` | pkg/controller/leadergroup_controller.go:208-267 | the stored status, the error and the requeue are those of the specification, and a written status reports whether the Lease is held |
| `LeaderGroups.LeaderGroupReconciler.CleanupLease` | pkg/controller/leadergroup_controller.go:270-290 | the Lease of a controller group is deleted, no other Lease and no group changes, and exactly when a call that is made fails nothing is deleted and an error returned |
| `LeaderGroups.LeaderGroupReconciler.Reconcile` | pkg/controller/leadergroup_controller.go:51-127 | Leases, groups, error and requeue are those of the specification, for every failure |

## Left out

- Wakeups.NoLostWakeups: assumes flap damping off, fixed labels and container ports of existing pods, at most as many sources in a namespace as its cache holds, and that no selection misses a failover; `CacheFollowing` proves the last for runs in which the current leader can be read and no failing worker was leaving another target, and the lemmas named above show what damping, labels, an over-full cache, failed reads and failed writes do.
- FlapDamping.AcquisitionWaits: an acquisition is a gain of the lead by an attempt throughout which the pod did not lead; a slice that is collected and created anew within one attempt that kept the leader is none.
- Watches.RejectedUpdatesKeepTheSlice: assumes that labels and container ports stay, and that a pod that is Ready before and after an update stays on its node.
- CacheTransparency.CacheIsTransparent: assumes that API calls succeed and that a source has a port; after a failed write it is false, as FailedWrites shows.
- SteadyState.CrashRestartEndsTheSame: assumes that the ports of the choice resolve, flap damping off, and that the source itself carries no leader annotations.
- Quiescence.SelfTriggeredEventsDieOut: the cluster's Services are sources, enabled Services without selector (as leader Services are), and Services that are not opted in and whose derived leader names are unused.
- LeaderQuery.AnswersAreRecent: `delay` bounds the time from reading the Lease to writing the cache; what happens between a method's last look at the clock and its caller's use of the answer is outside the bound.
- In `Runs` and what builds on it a reconcile reads one snapshot and one clock value; `Interleaving` splits it into fetch, note, list, choose, publish, read slice and patch slice, where choosing and publishing (Get and write of the leader Service) are single steps. Between the turns of `Quiescence` there is no resync.
- Retries are part of an API call, which succeeds or fails as a whole; backoff and conflicts are not modelled.
- Whole numbers are unbounded: int32 overflow of ports, of durations converted to int32 and of durations in nanoseconds is not modelled.
- The last-access times in the opted-in cache only decide what a refresh that cuts keeps; the sharing of cache entries, and the locks around both caches, are not modelled.
- The owner reference of a leader Service is not modelled; that of a slice is. Garbage collection may remove any slice at any time.
- Validation of DNS names, IP and duration parsing, trimming of white space and time formatting are uninterpreted functions.
- Edits of slices or leader Services by anybody else, and changes of a source's leader-service-name annotation while it exists, are excluded; the code never deletes what stands under the former name.
- Metrics, logging, tracing, Kubernetes Events, totals, the request pool and health checks: they do not affect decisions.
- LeaderGroups: conflicts on status updates are failures; a controller always reads the current LeaderGroup, while the theorem on skipped writes covers any version of a Lease.
- The manager's main program, the strategy table, the generated deep copies, charts and scripts: plumbing without decisions of their own.
