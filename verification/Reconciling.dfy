/**
 What one reconcile does, as a function of the store, the caches and the API server's answers:
 pkg/director/service_director.go, lines 228-1334. The class in ServiceDirector.dfy carries the
 same steps out in place and is proved against these functions.
 */
module Reconciling {
  import opened Wrappers
  import opened Kube
  import opened Selection
  import opened Routing
  import opened OptedIn

  const ANNOTATION_LEADER_SERVICE_NAME := "zen-lead.io/leader-service-name"
  const ANNOTATION_CURRENT_LEADER := "zen-lead.io/current-leader"
  const ANNOTATION_LEADER_POD_NAME := "zen-lead.io/leader-pod-name"
  const ANNOTATION_LEADER_POD_UID := "zen-lead.io/leader-pod-uid"
  const ANNOTATION_LAST_SWITCH_TIME := "zen-lead.io/leader-last-switch-time"
  const LABEL_MANAGED_BY := "app.kubernetes.io/managed-by"
  const LABEL_SOURCE_SERVICE := "zen-lead.io/source-service"
  const LABEL_SLICE_MANAGED_BY := "endpointslice.kubernetes.io/managed-by"
  const LABEL_SLICE_SERVICE_NAME := "kubernetes.io/service-name"
  const ZEN_LEAD := "zen-lead"

  /** The lifetime of a leader-pod cache entry: 30 seconds, whatever TTL is configured. */
  const LEADER_POD_TTL: Time := 30_000_000_000

  /** time.Format(time.RFC3339). */
  const FormatTime: Time -> string

  /** Keys that GitOps tools track; copying them would start an ownership conflict. */
  const GITOPS_LABELS := {
    "app.kubernetes.io/instance", "app.kubernetes.io/managed-by", "app.kubernetes.io/part-of",
    "app.kubernetes.io/version", "argocd.argoproj.io/instance", "fluxcd.io/part-of",
    "kustomize.toolkit.fluxcd.io/name", "kustomize.toolkit.fluxcd.io/namespace",
    "kustomize.toolkit.fluxcd.io/revision" }
  const GITOPS_ANNOTATIONS := {
    "argocd.argoproj.io/sync-wave", "argocd.argoproj.io/sync-options",
    "fluxcd.io/sync-checksum", "kustomize.toolkit.fluxcd.io/checksum" }

  // ---------- State, and the API server's answers ----------

  datatype CachedLeader = CachedLeader(pod: Pod, expiresAt: Time)

  /** None when the cache is switched off. */
  type LeaderCache = Option<map<NamespacedName, CachedLeader>>

  datatype Director = Director(store: Store, leaderCache: LeaderCache, optedIn: OptedInCache)

  /** The API calls of a reconcile, each named after the place that makes it. */
  datatype Call =
    | GetService | ListPods
    | GetPodCached | GetSlice | GetPod(endpoint: nat) | GetSliceSticky
    | GetSliceCleanup | RemoveSlice
    | GetLeaderService | CreateLeaderService | PatchLeaderService
    | GetSliceReconcile | GetLeaderServiceUid | CreateSlice | PatchSlice
    | GetServiceCleanup | GetLeaderServiceCleanup | RemoveLeaderService
    | ListLeaderServices | RemoveByLabel(service: NamespacedName)
    | ListServicesCache

  /**
   What a reconcile meets: the clock, the calls that fail after their retries, the answer of
   the pod List, the answer of the List by label, the list a cache refresh would leave, and the
   UID a created Service would get.
   */
  datatype Answers = Answers(
    now: Time, failing: set<Call>, listing: seq<Pod>, labelled: seq<Service>, refreshed: seq<CachedService>, freshUid: UID)

  datatype Outcome = Outcome(store: Store, writes: seq<Write>, ok: bool)

  function Fail(store: Store): Outcome { Outcome(store, [], false) }

  function Commit(store: Store, w: Write): Outcome { Outcome(ApplyWrite(store, w), [w], true) }

  /** The outcome's store is the starting store with the outcome's writes applied. */
  ghost predicate Accounted(start: Store, o: Outcome) {
    o.store == ApplyWrites(start, o.writes)
  }

  /** Carries on from a first outcome. */
  function Then(first: Outcome, second: Outcome): Outcome {
    Outcome(second.store, first.writes + second.writes, second.ok)
  }

  lemma ThenAccounted(start: Store, first: Outcome, second: Outcome)
    requires Accounted(start, first) && Accounted(first.store, second)
    ensures Accounted(start, Then(first, second))
  {
    ApplyWritesAppend(start, first.writes, second.writes);
  }

  // ---------- Names and labels ----------

  function LeaderServiceName(svc: Service): string {
    var custom := Value(svc.annotations, ANNOTATION_LEADER_SERVICE_NAME);
    var name := if custom != "" then custom else svc.key.name + "-leader";
    if IsDNS1123Subdomain(name) then name
    else if IsDNS1123Subdomain(svc.key.name + "-leader") then svc.key.name + "-leader"
    else svc.key.name
  }

  function LeaderKey(svc: Service): NamespacedName {
    NamespacedName(svc.key.namespace, LeaderServiceName(svc))
  }

  function LeaderServiceLabels(svc: Service): StringMap {
    (svc.labels - GITOPS_LABELS)[LABEL_MANAGED_BY := ZEN_LEAD][LABEL_SOURCE_SERVICE := svc.key.name]
  }

  function SliceLabels(svc: Service): StringMap {
    (svc.labels - GITOPS_LABELS)[LABEL_SLICE_SERVICE_NAME := LeaderServiceName(svc)][LABEL_MANAGED_BY := ZEN_LEAD]
      [LABEL_SOURCE_SERVICE := svc.key.name][LABEL_SLICE_MANAGED_BY := ZEN_LEAD]
  }

  /** Go's m[key] on a map of strings. */
  function Value(m: StringMap, key: string): string {
    if key in m then m[key] else ""
  }

  // ---------- The current leader ----------

  function CacheLeader(cache: LeaderCache, key: NamespacedName, pod: Pod, now: Time): LeaderCache {
    if cache.None? then None else Some(cache.value[key := CachedLeader(pod, now + LEADER_POD_TTL)])
  }

  function ForgetLeader(cache: LeaderCache, key: NamespacedName): LeaderCache {
    if cache.None? then None else Some(cache.value - {key})
  }

  /** One tick of cleanupLeaderPodCache. */
  function Sweep(cache: LeaderCache, now: Time): LeaderCache {
    if cache.None? then None
    else Some(map k | k in cache.value && !(now > cache.value[k].expiresAt) :: cache.value[k])
  }

  /** Get of a pod by name, accepted only if it still has the UID. */
  function PodWithUid(store: Store, key: NamespacedName, uid: UID): Option<Pod> {
    if key in store.pods && store.pods[key].uid == uid then Some(store.pods[key]) else None
  }

  function ReferencedPod(store: Store, endpoints: seq<Endpoint>, failing: set<Call>, i: nat := 0): Option<Pod>
    requires i <= |endpoints|
    decreases |endpoints| - i
  {
    if i == |endpoints| then None
    else
      var e := endpoints[i];
      var found := if NamesPod(e) && GetPod(i) !in failing
                   then PodWithUid(store, e.targetRef.value.pod, e.targetRef.value.uid) else None;
      if found.Some? then found else ReferencedPod(store, endpoints, failing, i + 1)
  }

  function CachedPod(store: Store, cache: LeaderCache, key: NamespacedName, a: Answers): Option<Pod> {
    if cache.Some? && key in cache.value && a.now < cache.value[key].expiresAt && GetPodCached !in a.failing
    then PodWithUid(store, cache.value[key].pod.key, cache.value[key].pod.uid)
    else None
  }

  /** getCurrentLeaderPod: from the cache, else from the EndpointSlice. */
  function CurrentLeader(store: Store, cache: LeaderCache, svc: Service, a: Answers): (Option<Pod>, LeaderCache) {
    var cached := CachedPod(store, cache, svc.key, a);
    if cached.Some? then (cached, cache)
    else if GetSlice in a.failing || LeaderKey(svc) !in store.slices then (None, cache)
    else
      var found := ReferencedPod(store, store.slices[LeaderKey(svc)].body.endpoints, a.failing);
      if found.Some? then (found, CacheLeader(cache, svc.key, found.value, a.now))
      else (None, ForgetLeader(cache, svc.key))
  }

  function StickySlice(store: Store, svc: Service, a: Answers): Option<EndpointSlice> {
    if GetSliceSticky in a.failing || LeaderKey(svc) !in store.slices then None else Some(store.slices[LeaderKey(svc)])
  }

  function UidOf(pod: Option<Pod>): Option<UID> {
    if pod.Some? then Some(pod.value.uid) else None
  }

  /** Lines 375-452: find the current leader, bypass stickiness if it is unhealthy, select, and update the cache. */
  function Choose(store: Store, cache: LeaderCache, svc: Service, a: Answers): (r: (Option<Pod>, LeaderCache))
    ensures r.0.Some? ==> r.0.value in a.listing && IsPodReady(r.0.value)
  {
    var (found, read) := CurrentLeader(store, cache, svc, a);
    var bypass := found.Some? && !Healthy(found.value);
    var current := if bypass then None else found;
    var checked := if bypass then ForgetLeader(read, svc.key) else read;
    var leader := SelectLeader(svc, StickySlice(store, svc, a), a.listing, bypass, a.now);
    if UidOf(current) == UidOf(leader) then (leader, checked)
    else if leader.Some? then (leader, CacheLeader(checked, svc.key, leader.value, a.now))
    else (leader, ForgetLeader(checked, svc.key))
  }

  // ---------- The leader Service ----------

  function LeaderServiceKind(svc: Service): string {
    if svc.headless || svc.kind == "" then "ClusterIP" else svc.kind
  }

  function Annotated(annotations: StringMap, leader: Pod): StringMap {
    annotations[ANNOTATION_CURRENT_LEADER := leader.key.name]
      [ANNOTATION_LEADER_POD_NAME := leader.key.name][ANNOTATION_LEADER_POD_UID := leader.uid]
  }

  function NewLeaderService(svc: Service, leader: Option<Pod>, ports: seq<ServicePort>, now: Time, uid: UID): (r: Service)
    ensures r.key == LeaderKey(svc) && r.selector == map[]
  {
    var copied := svc.annotations - GITOPS_ANNOTATIONS;
    var annotations := if leader.None? then copied
                       else Annotated(copied, leader.value)[ANNOTATION_LAST_SWITCH_TIME := FormatTime(now)];
    Service(LeaderKey(svc), uid, LeaderServiceLabels(svc), annotations, map[], ports, LeaderServiceKind(svc), false)
  }

  function UpdatedLeaderService(stored: Service, svc: Service, leader: Option<Pod>, ports: seq<ServicePort>, now: Time): (r: Service)
    ensures r.key == stored.key && r.selector == map[]
  {
    var annotations :=
      if leader.None? then
        stored.annotations - {ANNOTATION_CURRENT_LEADER, ANNOTATION_LEADER_POD_NAME, ANNOTATION_LEADER_POD_UID}
      else if Value(stored.annotations, ANNOTATION_LEADER_POD_UID) == leader.value.uid then Annotated(stored.annotations, leader.value)
      else Annotated(stored.annotations, leader.value)[ANNOTATION_LAST_SWITCH_TIME := FormatTime(now)];
    stored.(selector := map[], ports := ports, kind := LeaderServiceKind(svc), annotations := annotations)
  }

  /** Lines 818-945: create the selector-less leader Service, or patch it; a patch that changes nothing is no write. */
  function WriteLeaderService(store: Store, svc: Service, leader: Option<Pod>, ports: seq<ServicePort>, a: Answers): (o: Outcome)
    ensures Accounted(store, o)
  {
    var key := LeaderKey(svc);
    if GetLeaderService in a.failing then Fail(store)
    else if key !in store.services then
      if CreateLeaderService in a.failing then Fail(store)
      else Commit(store, PutService(NewLeaderService(svc, leader, ports, a.now, a.freshUid)))
    else if PatchLeaderService in a.failing then Fail(store)
    else
      var stored := store.services[key];
      var updated := UpdatedLeaderService(stored, svc, leader, ports, a.now);
      if updated == stored then Outcome(store, [], true) else Commit(store, PutService(updated))
  }

  // ---------- The EndpointSlice ----------

  /** Lines 789-810: a failed port resolution deletes the EndpointSlice, best effort. */
  function DropSlice(store: Store, key: NamespacedName, a: Answers): (o: Outcome)
    ensures Accounted(store, o) && o.ok
  {
    if GetSliceCleanup in a.failing || key !in store.slices || RemoveSlice in a.failing then Outcome(store, [], true)
    else Commit(store, DeleteSlice(store.slices[key]))
  }

  function SliceOwnerUid(store: Store, key: NamespacedName, a: Answers): UID {
    if GetLeaderServiceUid in a.failing || key !in store.services then "" else store.services[key].uid
  }

  /** reconcileEndpointSlice. */
  function WriteSlice(store: Store, svc: Service, leader: Option<Pod>, ports: seq<ServicePort>, a: Answers): (o: Outcome)
    ensures Accounted(store, o)
  {
    var key := LeaderKey(svc);
    if (ports == [] && leader.Some?) || !AllNumbered(ports) || GetSliceReconcile in a.failing then Fail(store)
    else
      var body := LeaderBody(leader, ports);
      if key !in store.slices then
        if CreateSlice in a.failing then Fail(store)
        else Commit(store, PutSlice(EndpointSlice(key, SliceLabels(svc), key.name, SliceOwnerUid(store, key, a), body)))
      else if PatchSlice in a.failing then Fail(store)
      else
        var updated := store.slices[key].(body := body);
        if updated == store.slices[key] then Outcome(store, [], true) else Commit(store, PutSlice(updated))
  }

  /** The leader that is routed to: none if its ports do not resolve. */
  function Routed(svc: Service, chosen: Option<Pod>): Option<Pod> {
    if Resolvable(svc.ports, chosen) then chosen else None
  }

  function RoutedPorts(svc: Service, chosen: Option<Pod>): seq<ServicePort> {
    if Resolvable(svc.ports, chosen) then ResolvePorts(svc.ports, chosen).value else []
  }

  /** Lines 772-945: resolve the ports, drop the slice if they fail, write the leader Service. */
  function Publish(store: Store, svc: Service, chosen: Option<Pod>, a: Answers): (o: Outcome)
    ensures Accounted(store, o)
  {
    var dropped := if Resolvable(svc.ports, chosen) then Outcome(store, [], true) else DropSlice(store, LeaderKey(svc), a);
    var served := WriteLeaderService(dropped.store, svc, Routed(svc, chosen), RoutedPorts(svc, chosen), a);
    ThenAccounted(store, dropped, served);
    Then(dropped, served)
  }

  /** reconcileLeaderService. */
  function Route(store: Store, svc: Service, chosen: Option<Pod>, a: Answers): (o: Outcome)
    ensures Accounted(store, o)
  {
    var published := Publish(store, svc, chosen, a);
    if !published.ok then published
    else
      var sliced := WriteSlice(published.store, svc, Routed(svc, chosen), RoutedPorts(svc, chosen), a);
      ThenAccounted(store, published, sliced);
      Then(published, sliced)
  }

  // ---------- Cleanup ----------

  /** The managed Services labelled with this source, which a List by label returns. */
  predicate LabelledFor(svc: Service, source: NamespacedName) {
    svc.key.namespace == source.namespace && LABEL_SOURCE_SERVICE in svc.labels && LABEL_MANAGED_BY in svc.labels
    && svc.labels[LABEL_SOURCE_SERVICE] == source.name && svc.labels[LABEL_MANAGED_BY] == ZEN_LEAD
  }

  function RemoveEach(store: Store, services: seq<Service>, failing: set<Call>): (o: Outcome)
    ensures Accounted(store, o) && o.ok
    decreases |services|
  {
    if services == [] then Outcome(store, [], true)
    else if RemoveByLabel(services[0].key) in failing then RemoveEach(store, services[1..], failing)
    else
      var first := Commit(store, DeleteService(services[0]));
      var rest := RemoveEach(first.store, services[1..], failing);
      ThenAccounted(store, first, rest);
      Then(first, rest)
  }

  /** `labelled` is the answer of the List by label. */
  ghost predicate IsLabelledListing(labelled: seq<Service>, store: Store, source: NamespacedName) {
    && (forall i, j :: 0 <= i < j < |labelled| ==> labelled[i].key != labelled[j].key)
    && (forall s :: s in labelled <==> s.key in store.services && store.services[s.key] == s && LabelledFor(s, source))
  }

  /** cleanupLeaderResources: by name if the Service can be read, else by label. */
  function Cleanup(store: Store, source: NamespacedName, a: Answers): (o: Outcome)
    ensures Accounted(store, o)
  {
    if GetServiceCleanup !in a.failing && source in store.services then
      var key := LeaderKey(store.services[source]);
      if GetLeaderServiceCleanup in a.failing || key !in store.services then Outcome(store, [], true)
      else if RemoveLeaderService in a.failing then Fail(store)
      else Commit(store, DeleteService(store.services[key]))
    else if ListLeaderServices in a.failing then Outcome(store, [], true)
    else RemoveEach(store, a.labelled, a.failing)
  }

  // ---------- Reconcile ----------

  /** A refresh of one namespace's list; a failed List leaves the cache as it is. */
  function Refresh(cache: OptedInCache, namespace: string, a: Answers): OptedInCache {
    if ListServicesCache in a.failing then cache else cache[namespace := a.refreshed]
  }

  datatype Reconciled = Reconciled(director: Director, writes: seq<Write>, ok: bool)

  function Done(o: Outcome, leaderCache: LeaderCache, optedIn: OptedInCache): Reconciled {
    Reconciled(Director(o.store, leaderCache, optedIn), o.writes, o.ok)
  }

  /** `ok` is false when Reconcile returns an error, which puts the request back on the queue. */
  function Reconcile(d: Director, request: NamespacedName, a: Answers): (r: Reconciled)
    ensures r.director.store == ApplyWrites(d.store, r.writes)
  {
    if GetService in a.failing then
      Done(Fail(d.store), d.leaderCache, Refresh(d.optedIn, request.namespace, a))
    else if request !in d.store.services then
      Done(Cleanup(d.store, request, a), d.leaderCache, Refresh(d.optedIn, request.namespace, a))
    else
      var svc := d.store.services[request];
      var optedIn := UpdateFor(d.optedIn, svc);
      if !Enabled(svc) then Done(Cleanup(d.store, request, a), d.leaderCache, optedIn)
      else if !IsDNS1123Label(request.namespace) || !IsDNS1123Subdomain(request.name) then
        Done(Fail(d.store), d.leaderCache, optedIn)
      else if |svc.selector| == 0 then Done(Outcome(d.store, [], true), d.leaderCache, optedIn)
      else if ListPods in a.failing then Done(Fail(d.store), d.leaderCache, optedIn)
      else if a.listing == [] then Done(Route(d.store, svc, None, a), d.leaderCache, optedIn)
      else
        var (leader, leaderCache) := Choose(d.store, d.leaderCache, svc, a);
        Done(Route(d.store, svc, leader, a), leaderCache, optedIn)
  }
}
