/**
 Runs of the Service Director whose reconciles each read one snapshot: reconciles, cache
 sweeps, garbage collection, and any change of the users' Services and pods in between.
 */
module Runs {
  import opened Wrappers
  import opened Kube
  import opened Selection
  import opened Routing
  import opened OptedIn
  import opened Reconciling

  // ---------- What every stored slice looks like ----------

  function Target(slice: EndpointSlice): Option<TargetRef> {
    if |slice.body.endpoints| == 1 then slice.body.endpoints[0].targetRef else None
  }

  /** One endpoint, whose reference, if any, names a pod by the UID and the name that belong together. */
  ghost predicate SingleEndpoint(w: World, slice: EndpointSlice) {
    && |slice.body.endpoints| == 1
    && (Target(slice).Some? ==>
          && NamesPod(slice.body.endpoints[0])
          && w.home(Target(slice).value.uid) == Target(slice).value.pod)
  }

  ghost predicate SlicesOf(w: World, slices: map<NamespacedName, EndpointSlice>) {
    forall k :: k in slices ==> slices[k].key == k && SingleEndpoint(w, slices[k])
  }

  /** Services are stored under their own name, and a source keeps its leader Service name. */
  ghost predicate ServicesOf(w: World, services: map<NamespacedName, Service>) {
    forall k :: k in services ==>
      services[k].key == k && (Source(services[k]) ==> LeaderKey(services[k]) == w.leader(k))
  }

  ghost predicate StoreOf(w: World, store: Store) {
    PodsOf(w, store.pods) && SlicesOf(w, store.slices) && ServicesOf(w, store.services)
  }

  lemma ListingIsDistinct(w: World, listing: seq<Pod>, store: Store, svc: Service)
    requires PodsOf(w, store.pods) && IsListing(listing, store, svc)
    ensures Distinct(listing)
  {
    forall p, q | p in listing && q in listing && p.uid == q.uid ensures p == q {
      assert p.key == w.home(p.uid) == q.key;
    }
  }

  // ---------- What a reconcile selects, read off the store alone ----------

  /** The stored pod that the slice routes to. */
  function TargetPod(store: Store, key: NamespacedName): Option<Pod> {
    if key in store.slices && Target(store.slices[key]).Some?
    then PodWithUid(store, Target(store.slices[key]).value.pod, Target(store.slices[key]).value.uid)
    else None
  }

  /** Keep the slice's target while it is healthy; otherwise the eldest eligible pod. */
  function Choice(store: Store, svc: Service, listing: seq<Pod>, now: Time): (r: Option<Pod>)
    ensures r.Some? ==> r.value in listing && IsPodReady(r.value)
  {
    var target := TargetPod(store, LeaderKey(svc));
    SelectLeader(svc, if LeaderKey(svc) in store.slices then Some(store.slices[LeaderKey(svc)]) else None,
                 listing, target.Some? && !Healthy(target.value), now)
  }

  /** Where both exist, the cached leader of k and the target of its slice are the same pod. */
  ghost predicate AgreesAt(w: World, d: Director, k: NamespacedName) {
    d.leaderCache.Some? && k in d.leaderCache.value ==>
      && w.home(d.leaderCache.value[k].pod.uid) == d.leaderCache.value[k].pod.key
      && (w.leader(k) in d.store.slices && Target(d.store.slices[w.leader(k)]).Some? ==>
            Target(d.store.slices[w.leader(k)]).value.uid == d.leaderCache.value[k].pod.uid)
  }

  ghost predicate CacheAgrees(w: World, d: Director) {
    d.leaderCache.Some? ==> forall k :: k in d.leaderCache.value ==> AgreesAt(w, d, k)
  }

  /** The pod the slice holds, by its UID, if the source is sticky and the pod is listed and Ready. */
  function HeldBySlice(store: Store, svc: Service, listing: seq<Pod>): Option<Pod> {
    if Sticky(svc) && LeaderKey(svc) in store.slices then StickyLeader(store.slices[LeaderKey(svc)].body.endpoints, listing) else None
  }

  /** Stickiness is to be bypassed: the slice's target is stored, but not healthy. */
  predicate FailoverCalled(store: Store, svc: Service) {
    TargetPod(store, LeaderKey(svc)).Some? && !Healthy(TargetPod(store, LeaderKey(svc)).value)
  }

  /** Stickiness is bypassed: an unhealthy leader was found, or the read for stickiness fails. */
  predicate Bypasses(d: Director, svc: Service, a: Answers) {
    var found := CurrentLeader(d.store, d.leaderCache, svc, a).0;
    (found.Some? && !Healthy(found.value)) || GetSliceSticky in a.failing
  }

  /**
   Whatever fails and whatever the cache says, the selection is what the store calls for exactly
   unless the slice holds a pod other than the eldest and the bypass is not as the target's health
   calls for; then the held pod is kept against an unhealthy target, or dropped against a healthy one.
   */
  lemma SelectionIsRightIff(d: Director, svc: Service, a: Answers)
    ensures var held, eldest := HeldBySlice(d.store, svc, a.listing), Eldest(a.listing, MinReadyDuration(svc), a.now);
            var wrong := held.Some? && held != eldest && (FailoverCalled(d.store, svc) != Bypasses(d, svc, a));
            && (Choose(d.store, d.leaderCache, svc, a).0 == Choice(d.store, svc, a.listing, a.now) <==> !wrong)
            && (wrong ==> Choose(d.store, d.leaderCache, svc, a).0 == if FailoverCalled(d.store, svc) then held else eldest)
  {
    hide LeaderServiceName, CurrentLeader, Healthy, StickyLeader, Eldest, MinReadyDuration, TargetPod;
  }

  lemma AgreementEverywhere(w: World, d: Director, k: NamespacedName)
    requires CacheAgrees(w, d)
    ensures AgreesAt(w, d, k)
  {
  }

  /** With a cache that agrees and reads that succeed, the cache has no say in the selection. */
  lemma ChooseIsChoice(w: World, d: Director, svc: Service, a: Answers)
    requires SlicesOf(w, d.store.slices) && AgreesAt(w, d, svc.key)
    requires LeaderKey(svc) == w.leader(svc.key)
    requires a.failing !! {GetSlice, GetPod(0), GetSliceSticky}
    ensures Choose(d.store, d.leaderCache, svc, a).0 == Choice(d.store, svc, a.listing, a.now)
  {
    var key := LeaderKey(svc);
    var found := CurrentLeader(d.store, d.leaderCache, svc, a).0;
    if key in d.store.slices {
      var slice := d.store.slices[key];
      var endpoints := slice.body.endpoints;
      if Target(slice).Some? {
        assert ReferencedPod(d.store, endpoints, a.failing, 1) == None;
        assert found == TargetPod(d.store, key);
      } else {
        assert StickyLeader(endpoints[1..], a.listing) == None;
        assert StickyLeader(endpoints, a.listing) == None;
      }
    }
  }

  /** The current leader is not found although the slice has a target: no cache entry serves, and a read fails. */
  predicate LeaderUnread(d: Director, svc: Service, a: Answers) {
    CachedPod(d.store, d.leaderCache, svc.key, a).None? && (GetSlice in a.failing || GetPod(0) in a.failing)
  }

  lemma UnreadOrTarget(w: World, d: Director, svc: Service, a: Answers)
    requires SlicesOf(w, d.store.slices) && AgreesAt(w, d, svc.key) && LeaderKey(svc) == w.leader(svc.key)
    requires TargetPod(d.store, LeaderKey(svc)).Some?
    ensures CurrentLeader(d.store, d.leaderCache, svc, a).0 == if LeaderUnread(d, svc, a) then None else TargetPod(d.store, LeaderKey(svc))
  {
    hide LeaderServiceName;
    var endpoints := d.store.slices[LeaderKey(svc)].body.endpoints;
    assert ReferencedPod(d.store, endpoints, a.failing, 1) == None;
  }

  lemma StickyLeaderIsTarget(slice: EndpointSlice, listing: seq<Pod>)
    requires |slice.body.endpoints| == 1
    ensures var r := StickyLeader(slice.body.endpoints, listing);
            r.Some? ==> Target(slice).Some? && Target(slice).value.uid == r.value.uid
  {
    assert StickyLeader(slice.body.endpoints[1..], listing) == None;
  }

  /** A target that is terminating, not Ready or without address loses its hold: the eldest eligible pod is chosen, sticky or not. */
  lemma UnhealthyTargetLosesItsHold(w: World, store: Store, svc: Service, listing: seq<Pod>, now: Time)
    requires StoreOf(w, store) && IsListing(listing, store, svc) && TargetPod(store, LeaderKey(svc)).Some?
    requires var pod := TargetPod(store, LeaderKey(svc)).value;
             pod.deletion.Some? || !pod.phase.Running? || !ReportsReady(pod) || pod.podIP == ""
    ensures forall p :: Choice(store, svc, listing, now) == Some(p) <==> IsEldest(p, listing, MinReadyDuration(svc), now)
    ensures Choice(store, svc, listing, now).None? <==> forall p :: p in listing ==> !Eligible(p, MinReadyDuration(svc), now)
  {
    hide LeaderServiceName, MinReadyDuration, SelectLeader, Eligible;
    ListingIsDistinct(w, listing, store, svc);
    SelectionIsDeterministic(svc, Some(store.slices[LeaderKey(svc)]), listing, true, now);
  }

  // ---------- What a reconcile writes ----------

  ghost predicate SelectorLess(key: NamespacedName, before: Store, after: Store) {
    key in after.services ==>
      || (key in before.services && after.services[key] == before.services[key])
      || (after.services[key].key == key && |after.services[key].selector| == 0)
  }

  lemma LeaderServiceWrites(store: Store, svc: Service, leader: Option<Pod>, ports: seq<ServicePort>, a: Answers)
    requires forall k :: k in store.services ==> store.services[k].key == k
    ensures var o := WriteLeaderService(store, svc, leader, ports, a);
            OnlyAt(LeaderKey(svc), store, o.store) && o.store.slices == store.slices
            && SelectorLess(LeaderKey(svc), store, o.store) && (a.failing == {} ==> o.ok)
  {
    hide LeaderServiceName, NewLeaderService, UpdatedLeaderService, OnlyAt;
    var o := WriteLeaderService(store, svc, leader, ports, a);
    OnlyAtComposes(LeaderKey(svc), store, store, store);
    if o.writes != [] { WriteTouches(store, o.writes[0]); }
  }

  predicate Carries(slice: EndpointSlice, svc: Service, chosen: Option<Pod>) {
    AllNumbered(RoutedPorts(svc, chosen)) && slice.body == LeaderBody(Routed(svc, chosen), RoutedPorts(svc, chosen))
  }

  lemma SliceWrites(store: Store, svc: Service, chosen: Option<Pod>, a: Answers)
    requires forall k :: k in store.slices ==> store.slices[k].key == k
    ensures var o, key := WriteSlice(store, svc, Routed(svc, chosen), RoutedPorts(svc, chosen), a), LeaderKey(svc);
            && OnlyAt(key, store, o.store) && o.store.services == store.services
            && (o.ok ==> key in o.store.slices && o.store.slices[key].key == key && Carries(o.store.slices[key], svc, chosen))
            && (!o.ok ==> o.store == store)
            && (a.failing == {} && |svc.ports| > 0 ==> o.ok)
  {
    hide LeaderServiceName, SliceLabels, LeaderBody, OnlyAt;
    var o := WriteSlice(store, svc, Routed(svc, chosen), RoutedPorts(svc, chosen), a);
    OnlyAtComposes(LeaderKey(svc), store, store, store);
    if o.writes != [] { WriteTouches(store, o.writes[0]); }
    ResolutionIsAllOrNothing(svc.ports, chosen);
  }

  lemma PublishWrites(store: Store, svc: Service, chosen: Option<Pod>, a: Answers)
    requires forall k :: k in store.slices ==> store.slices[k].key == k
    requires forall k :: k in store.services ==> store.services[k].key == k
    ensures var o, key := Publish(store, svc, chosen, a), LeaderKey(svc);
            && OnlyAt(key, store, o.store)
            && (o.store.slices == store.slices || (!Resolvable(svc.ports, chosen) && o.store.slices == store.slices - {key}))
            && SelectorLess(key, store, o.store)
            && (a.failing == {} ==> o.ok)
  {
    hide LeaderServiceName, WriteLeaderService, OnlyAt;
    var dropped := if Resolvable(svc.ports, chosen) then Outcome(store, [], true) else DropSlice(store, LeaderKey(svc), a);
    if dropped.writes != [] { WriteTouches(store, dropped.writes[0]); }
    OnlyAtComposes(LeaderKey(svc), store, store, store);
    LeaderServiceWrites(dropped.store, svc, Routed(svc, chosen), RoutedPorts(svc, chosen), a);
    OnlyAtComposes(LeaderKey(svc), store, dropped.store, Publish(store, svc, chosen, a).store);
  }

  /** Routing changes nothing but its leader Service and slice, and on success the slice carries the chosen pod. */
  lemma RouteWrites(store: Store, svc: Service, chosen: Option<Pod>, a: Answers)
    requires forall k :: k in store.slices ==> store.slices[k].key == k
    requires forall k :: k in store.services ==> store.services[k].key == k
    ensures var o, key := Route(store, svc, chosen, a), LeaderKey(svc);
            && OnlyAt(key, store, o.store) && SelectorLess(key, store, o.store)
            && (o.ok ==> key in o.store.slices && o.store.slices[key].key == key && Carries(o.store.slices[key], svc, chosen))
            && (!o.ok ==> o.store.slices == store.slices || o.store.slices == store.slices - {key})
            && (a.failing == {} && |svc.ports| > 0 ==> o.ok)
  {
    hide LeaderServiceName, Publish, WriteSlice, OnlyAt;
    var published := Publish(store, svc, chosen, a);
    PublishWrites(store, svc, chosen, a);
    SliceWrites(published.store, svc, chosen, a);
    OnlyAtComposes(LeaderKey(svc), store, published.store, Route(store, svc, chosen, a).store);
  }

  /** The body written for a chosen pod refers to that pod, if it refers to any. */
  lemma BodyRefersToChosen(w: World, slice: EndpointSlice, svc: Service, chosen: Option<Pod>)
    requires Carries(slice, svc, chosen)
    requires chosen.Some? ==> chosen.value.uid != "" && w.home(chosen.value.uid) == chosen.value.key
    ensures SingleEndpoint(w, slice)
    ensures Target(slice) ==
            if Addressed(Routed(svc, chosen)) then Some(TargetRef("Pod", chosen.value.key, chosen.value.uid)) else None
  {
  }

  /**
   After a routing that reports success, the slice has an address exactly if a pod with an address
   was chosen and each port can be resolved, also when the deletion after a failed resolution failed.
   */
  lemma AddressedIffEveryPortResolves(store: Store, svc: Service, chosen: Option<Pod>, a: Answers)
    requires forall k :: k in store.slices ==> store.slices[k].key == k
    requires forall k :: k in store.services ==> store.services[k].key == k
    requires Route(store, svc, chosen, a).ok
    ensures var slices := Route(store, svc, chosen, a).store.slices;
            && LeaderKey(svc) in slices && |slices[LeaderKey(svc)].body.endpoints| == 1
            && (slices[LeaderKey(svc)].body.endpoints[0].addresses != []
                <==> Addressed(chosen) && forall p :: p in svc.ports ==> CanResolve(p, chosen))
            && (slices[LeaderKey(svc)].body.endpoints[0].addresses != [] ==> |slices[LeaderKey(svc)].body.ports| == |svc.ports| > 0)
  {
    hide LeaderServiceName, Route, CanResolve;
    RouteWrites(store, svc, chosen, a);
    ResolutionIsAllOrNothing(svc.ports, chosen);
    if svc.ports == [] && chosen.Some? { NoPortsIsNoSuccess(store, svc, chosen, a); }
  }

  lemma NoPortsIsNoSuccess(store: Store, svc: Service, chosen: Option<Pod>, a: Answers)
    requires svc.ports == [] && chosen.Some?
    ensures !Route(store, svc, chosen, a).ok
  {
    hide LeaderServiceName, Publish;
  }

  // ---------- Runs ----------

  datatype Step =
    | Reconciles(request: NamespacedName, answers: Answers)
    | Sweeps(now: Time)
    | Collects(slice: NamespacedName)
    | Changes(services: map<NamespacedName, Service>, pods: map<NamespacedName, Pod>)

  function Next(d: Director, step: Step): Director {
    match step
    case Reconciles(request, a) => Reconcile(d, request, a).director
    case Sweeps(now) => d.(leaderCache := Sweep(d.leaderCache, now))
    case Collects(slice) => d.(store := d.store.(slices := d.store.slices - {slice}))
    case Changes(services, pods) => d.(store := d.store.(services := services, pods := pods))
  }

  /** The List answers with the matching pods; the call is made only for a source. */
  ghost predicate Lists(store: Store, request: NamespacedName, a: Answers) {
    request in store.services && Source(store.services[request]) ==> IsListing(a.listing, store, store.services[request])
  }

  /** Services stay well named; pods keep their names and UIDs; a List answers with the matching pods. */
  ghost predicate Admissible(w: World, d: Director, step: Step) {
    match step
    case Reconciles(request, a) => Lists(d.store, request, a) && IsLabelledListing(a.labelled, d.store, request)
    case Sweeps(_) => true
    case Collects(_) => true
    case Changes(services, pods) => ServicesOf(w, services) && PodsOf(w, pods)
  }

  /** A List answer always exists. */
  lemma {:induction false} ListingExists(store: Store, svc: Service, keys: set<NamespacedName>) returns (listing: seq<Pod>)
    requires forall k :: k in store.pods ==> store.pods[k].key == k
    ensures DistinctKeys(listing)
    ensures forall p :: p in listing <==> p.key in keys && p.key in store.pods && store.pods[p.key] == p && Matches(svc, p)
    ensures keys == store.pods.Keys ==> IsListing(listing, store, svc)
    decreases |keys|
  {
    hide Matches;
    listing := [];
    if keys != {} {
      var k :| k in keys;
      var rest := ListingExists(store, svc, keys - {k});
      listing := rest;
      if k in store.pods && Matches(svc, store.pods[k]) {
        listing := [store.pods[k]] + rest;
        assert forall i :: 0 <= i < |rest| ==> rest[i] in rest;
      }
    }
  }

  lemma {:induction false} LabelledListingExists(store: Store, source: NamespacedName, keys: set<NamespacedName>) returns (labelled: seq<Service>)
    requires forall k :: k in store.services ==> store.services[k].key == k
    ensures forall i, j :: 0 <= i < j < |labelled| ==> labelled[i].key != labelled[j].key
    ensures forall s :: s in labelled <==> s.key in keys && s.key in store.services && store.services[s.key] == s && LabelledFor(s, source)
    ensures keys == store.services.Keys ==> IsLabelledListing(labelled, store, source)
    decreases |keys|
  {
    hide LabelledFor;
    labelled := [];
    if keys != {} {
      var k :| k in keys;
      var rest := LabelledListingExists(store, source, keys - {k});
      labelled := rest;
      if k in store.services && LabelledFor(store.services[k], source) {
        labelled := [store.services[k]] + rest;
        assert forall i :: 0 <= i < |rest| ==> rest[i] in rest;
      }
    }
  }

  /** Any request can be reconciled without failures, at any time. */
  lemma AnswersExist(w: World, d: Director, request: NamespacedName, now: Time) returns (a: Answers)
    requires StoreOf(w, d.store)
    ensures a.failing == {} && a.now == now && Admissible(w, d, Reconciles(request, a))
  {
    hide LeaderServiceName, Source, LabelledFor, Matches, SlicesOf, DistinctKeys;
    var labelled := LabelledListingExists(d.store, request, d.store.services.Keys);
    var listing := [];
    if request in d.store.services { listing := ListingExists(d.store, d.store.services[request], d.store.pods.Keys); }
    a := Answers(now, {}, listing, labelled, [], "");
  }

  function Run(d: Director, steps: seq<Step>): Director
    decreases |steps|
  {
    if steps == [] then d else Run(Next(d, steps[0]), steps[1..])
  }

  ghost predicate AdmissibleRun(w: World, d: Director, steps: seq<Step>)
    decreases |steps|
  {
    steps != [] ==> Admissible(w, d, steps[0]) && AdmissibleRun(w, Next(d, steps[0]), steps[1..])
  }

  lemma CleanupWrites(store: Store, source: NamespacedName, a: Answers)
    requires forall k :: k in store.services ==> store.services[k].key == k
    ensures var o := Cleanup(store, source, a);
            && o.store.pods == store.pods && o.store.slices == store.slices
            && forall k :: k in o.store.services ==> k in store.services && o.store.services[k] == store.services[k]
  {
    RemoveEachWrites(store, a.labelled, a.failing);
  }

  lemma {:induction false} RemoveEachWrites(store: Store, services: seq<Service>, failing: set<Call>)
    ensures var o := RemoveEach(store, services, failing);
            && o.store.pods == store.pods && o.store.slices == store.slices
            && forall k :: k in o.store.services ==> k in store.services && o.store.services[k] == store.services[k]
    decreases |services|
  {
    if services != [] {
      RemoveEachWrites(store, services[1..], failing);
      RemoveEachWrites(ApplyWrite(store, DeleteService(services[0])), services[1..], failing);
    }
  }

  // ---------- The two kinds of reconcile ----------

  /** The reconcile reaches the routing of a source. */
  predicate Routes(d: Director, request: NamespacedName, a: Answers) {
    && GetService !in a.failing && ListPods !in a.failing
    && request in d.store.services && Source(d.store.services[request])
    && IsDNS1123Label(request.namespace) && IsDNS1123Subdomain(request.name)
  }

  function Chosen(d: Director, svc: Service, a: Answers): (Option<Pod>, LeaderCache) {
    if a.listing == [] then (None, d.leaderCache) else Choose(d.store, d.leaderCache, svc, a)
  }

  /** A reconcile either routes a source, or leaves pods, slices and leader cache alone and at most deletes Services. */
  lemma ReconcileRoutesOrCleans(d: Director, request: NamespacedName, a: Answers)
    requires forall k :: k in d.store.services ==> d.store.services[k].key == k
    ensures var r := Reconcile(d, request, a);
            if Routes(d, request, a) then
              var svc := d.store.services[request];
              var o := Route(d.store, svc, Chosen(d, svc, a).0, a);
              r.director.store == o.store && r.writes == o.writes && r.ok == o.ok && r.director.leaderCache == Chosen(d, svc, a).1
            else
              && r.director.leaderCache == d.leaderCache
              && r.director.store.pods == d.store.pods && r.director.store.slices == d.store.slices
              && forall k :: k in r.director.store.services ==>
                   k in d.store.services && r.director.store.services[k] == d.store.services[k]
  {
    hide Route, Choose, Cleanup, UpdateFor, ApplyWrites;
    CleanupWrites(d.store, request, a);
  }

  /** Whatever fails, the store stays well formed. */
  lemma StoreStaysWellFormed(w: World, d: Director, step: Step)
    requires StoreOf(w, d.store) && Admissible(w, d, step)
    ensures StoreOf(w, Next(d, step).store)
  {
    hide LeaderServiceName, Route, Choose, Enabled, Reconcile, Carries, SingleEndpoint;
    if step.Reconciles? {
      var request, a := step.request, step.answers;
      ReconcileRoutesOrCleans(d, request, a);
      if Routes(d, request, a) {
        var svc := d.store.services[request];
        var chosen := Chosen(d, svc, a).0;
        RouteWrites(d.store, svc, chosen, a);
        var slices := Route(d.store, svc, chosen, a).store.slices;
        if Route(d.store, svc, chosen, a).ok { BodyRefersToChosen(w, slices[LeaderKey(svc)], svc, chosen); }
      }
    }
  }
}
