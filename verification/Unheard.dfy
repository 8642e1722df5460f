/**
 What the director does not hear. A system at rest is moved only from outside, and by the resync of
 the informers (every ten minutes, by the comment on line 1496). Neither the clock nor the
 relabelling of a pod moves it, though both can change what a reconcile would write.
 */
module Unheard {
  import opened Wrappers
  import opened Kube
  import opened Selection
  import opened Routing
  import opened Reconciling
  import opened Runs
  import opened SteadyState
  import opened FlapDamping
  import opened Watches
  import opened Interleaving
  import opened Provenance
  import opened Wakeups

  // ---------- Rest ----------

  /** Nothing is queued, in progress or announced. */
  predicate AtRest(s: System) {
    s.queue == {} && s.workers == map[] && s.events == multiset{}
  }

  /** Steps of users, kubelets, the garbage collector and fate, and the periodic resync. */
  predicate Stirs(act: Action) {
    act.ChangePod? || act.ChangeService? || act.Collect? || act.Resync? || act.Crash?
  }

  lemma RestIsLeftWhenStirred(s: System, act: Action)
    requires AtRest(s) && Possible(s, act) && !Stirs(act)
    ensures AtRest(Act(s, act)) && Act(s, act).store == s.store
  {
  }

  /** A run without change from outside and without resync stays at rest, with the same store. */
  lemma {:induction false} RestLasts(w: World, s: System, acts: seq<Action>)
    requires AtRest(s) && AllowedRun(w, s, acts) && forall i :: 0 <= i < |acts| ==> !Stirs(acts[i])
    ensures AtRest(After(w, s, acts)) && After(w, s, acts).store == s.store
    decreases |acts|
  {
    hide AtRest, Stirs, Possible, Act, Allowed;
    if acts != [] {
      RestIsLeftWhenStirred(s, acts[0]);
      RestLasts(w, Act(s, acts[0]), acts[1..]);
    }
  }

  /** A resync announces every stored Service and slice; that of the pods is rejected by the predicate, as nothing differs. */
  ghost predicate AnnouncesAll(store: Store, announced: multiset<Event>) {
    && (forall k :: k in store.services ==> ServiceEvent(k) in announced)
    && (forall k :: k in store.slices ==> SliceEvent(store.slices[k]) in announced)
  }

  /** The resync wakes every Service: each is announced, and queued once its event is delivered. */
  lemma ResyncWakesEveryService(s: System, announced: multiset<Event>, k: NamespacedName)
    requires AnnouncesAll(s.store, announced) && k in s.store.services
    ensures var t := Act(s, Resync(announced));
            && t.store == s.store && Woken(t, k) && Possible(t, DeliverEvent(ServiceEvent(k)))
            && k in Act(t, DeliverEvent(ServiceEvent(k))).queue
  {
    hide PodEvents, EventsOf, SliceRequests, Matches;
    assert Calls(Act(s, Resync(announced)), ServiceEvent(k), k);
  }

  lemma UnchangedPodIsRejected(pod: Pod)
    ensures !UpdatePasses(pod, pod)
  {
  }

  // ---------- The clock ----------

  lemma BodyTargets(w: World, svc: Service, choice: Option<Pod>)
    requires choice.Some? ==> choice.value.uid != "" && w.home(choice.value.uid) == choice.value.key
    ensures var e := BodyFor(svc, choice).endpoints;
            && |e| == 1 && (e[0].targetRef.Some? ==> choice.Some? && e[0].targetRef.value.pod == choice.value.key)
            && e[0].targetRef == if Addressed(Routed(svc, choice)) then Some(TargetRef("Pod", choice.value.key, choice.value.uid)) else None
  {
    ResolvedPortsOfRouted(svc, choice);
  }

  lemma ListedPodsAreAtHome(w: World, store: Store, svc: Service, listing: seq<Pod>, p: Pod)
    requires PodsOf(w, store.pods) && IsListing(listing, store, svc) && p in listing
    ensures p.uid != "" && w.home(p.uid) == p.key && p.key in store.pods && store.pods[p.key] == p
  {
  }

  /**
   A slice that was as wanted at one time is not at a later one, if a senior pod with an address and
   resolvable ports matures in between and no target is held; and at rest nothing changes that until
   the next resync.
   */
  lemma ClockAloneUnsettlesASlice(w: World, s: System, svc: Service, listing: seq<Pod>, now: Time, later: Time, acts: seq<Action>)
    requires AtRest(s) && StoreOf(w, s.store) && IsListing(listing, s.store, svc) && now <= later
    requires LeaderKey(svc) in s.store.slices && s.store.slices[LeaderKey(svc)].body == WantedBody(s.store, svc, listing, now)
    requires !Held(s.store, svc, listing) && Overtaken(listing, MinReadyDuration(svc), now, later)
    requires Addressed(Routed(svc, Choice(s.store, svc, listing, later)))
    requires AllowedRun(w, s, acts) && forall i :: 0 <= i < |acts| ==> !Stirs(acts[i])
    ensures var t := After(w, s, acts);
            AtRest(t) && t.store == s.store && t.store.slices[LeaderKey(svc)].body != WantedBody(t.store, svc, listing, later)
  {
    hide LeaderServiceName, Choice, Held, Overtaken, StoreOf, IsListing, MinReadyDuration, AtRest, Stirs, AllowedRun, After, Resolvable;
    RestLasts(w, s, acts);
    ClockAloneChangesTheChoice(w, s.store, svc, listing, now, later);
    var before, after := Choice(s.store, svc, listing, now), Choice(s.store, svc, listing, later);
    ChosenAtHome(w, s.store, svc, listing, before);
    ChosenAtHome(w, s.store, svc, listing, after);
    BodyTargets(w, svc, before);
    BodyTargets(w, svc, after);
  }

  lemma ChosenAtHome(w: World, store: Store, svc: Service, listing: seq<Pod>, choice: Option<Pod>)
    requires StoreOf(w, store) && IsListing(listing, store, svc) && (choice.Some? ==> choice.value in listing)
    ensures choice.Some? ==> choice.value.uid != "" && w.home(choice.value.uid) == choice.value.key
                             && choice.value.key in store.pods && store.pods[choice.value.key] == choice.value
  {
    if choice.Some? { ListedPodsAreAtHome(w, store, svc, listing, choice.value); }
  }

  // ---------- Labels ----------

  function Relabelled(pod: Pod, labels: StringMap): Pod {
    pod.(labels := labels)
  }

  /** An update of the labels alone is rejected by the predicate, so a system at rest stays at rest. */
  lemma RelabellingIsUnheard(s: System, key: NamespacedName, labels: StringMap)
    requires AtRest(s) && key in s.store.pods
    ensures var t := Act(s, ChangePod(key, Some(Relabelled(s.store.pods[key], labels))));
            AtRest(t) && t.store == s.store.(pods := s.store.pods[key := Relabelled(s.store.pods[key], labels)])
  {
  }

  /** The store after a relabelling is as well formed as before, and its target the relabelled pod. */
  lemma RelabelledStore(w: World, store: Store, svc: Service, pod: Pod, labels: StringMap)
    requires StoreOf(w, store) && TargetPod(store, LeaderKey(svc)) == Some(pod) && pod.key in store.pods && store.pods[pod.key] == pod
    ensures var after := store.(pods := store.pods[pod.key := Relabelled(pod, labels)]);
            StoreOf(w, after) && TargetPod(after, LeaderKey(svc)) == Some(Relabelled(pod, labels))
  {
    hide LeaderServiceName, SingleEndpoint, ServicesOf;
  }

  lemma SameLeaderEndpoint(svc: Service, pod: Pod, labels: StringMap)
    ensures Healthy(Relabelled(pod, labels)) == Healthy(pod)
    ensures ResolvePorts(svc.ports, Some(Relabelled(pod, labels))) == ResolvePorts(svc.ports, Some(pod))
    ensures BodyFor(svc, Some(Relabelled(pod, labels))) == BodyFor(svc, Some(pod))
  {
    hide ResolvePort, ResolvePorts;
    PortsOfRelabelled(svc.ports, pod, labels);
    ResolvedPortsOfRouted(svc, Some(pod));
    assert Routed(svc, Some(Relabelled(pod, labels))).Some? == Routed(svc, Some(pod)).Some?;
  }

  lemma {:induction false} PortsOfRelabelled(ports: seq<ServicePort>, pod: Pod, labels: StringMap)
    ensures ResolvePorts(ports, Some(Relabelled(pod, labels))) == ResolvePorts(ports, Some(pod))
  {
    if ports != [] { PortsOfRelabelled(ports[1..], pod, labels); }
  }

  function RelabelledIn(store: Store, pod: Pod, labels: StringMap): Store {
    store.(pods := store.pods[pod.key := Relabelled(pod, labels)])
  }

  /** What is wanted after the relabelling of a healthy target: the same as before exactly if it still matches. */
  lemma WantedAfterRelabelling(w: World, store: Store, svc: Service, pod: Pod, labels: StringMap, listing: seq<Pod>, now: Time)
    requires StoreOf(w, store) && Sticky(svc) && LeaderKey(svc) in store.slices
    requires TargetPod(store, LeaderKey(svc)) == Some(pod) && Healthy(pod) && Resolvable(svc.ports, Some(pod))
    requires IsListing(listing, RelabelledIn(store, pod, labels), svc)
    ensures WantedBody(RelabelledIn(store, pod, labels), svc, listing, now) == BodyFor(svc, Some(pod)) <==> Matches(svc, Relabelled(pod, labels))
  {
    hide LeaderServiceName, Choice, StoreOf, IsListing, Resolvable, Healthy, TargetPod, Sticky, Matches, BodyFor, Routed, RoutedPorts, LeaderBody;
    var q, after := Relabelled(pod, labels), RelabelledIn(store, pod, labels);
    TargetIsStored(w, store, svc, pod);
    RelabelledStore(w, store, svc, pod, labels);
    SameLeaderEndpoint(svc, pod, labels);
    ListedIffMatching(after, svc, listing, q);
    var choice := Choice(after, svc, listing, now);
    WantedIsBodyFor(after, svc, listing, now);
    if Matches(svc, q) {
      HealthyTargetIsChosen(w, after, svc, listing, now, q);
    } else {
      ChosenAtHome(w, after, svc, listing, choice);
      AddressedTarget(w, store, svc, pod);
      BodyTargets(w, svc, choice);
      assert choice != Some(q);
    }
  }

  lemma WantedIsBodyFor(store: Store, svc: Service, listing: seq<Pod>, now: Time)
    ensures WantedBody(store, svc, listing, now) == BodyFor(svc, Choice(store, svc, listing, now))
  {
    hide Choice, Routed, RoutedPorts, LeaderBody;
  }

  lemma AddressedTarget(w: World, store: Store, svc: Service, pod: Pod)
    requires StoreOf(w, store) && pod.key in store.pods && store.pods[pod.key] == pod && Healthy(pod) && Resolvable(svc.ports, Some(pod))
    ensures var e := BodyFor(svc, Some(pod)).endpoints; |e| == 1 && e[0].targetRef == Some(TargetRef("Pod", pod.key, pod.uid))
  {
    hide Resolvable, BodyFor;
    BodyTargets(w, svc, Some(pod));
  }

  /**
   The leader of a sticky source, healthy and with resolvable ports, is relabelled. The slice is
   still what a reconcile would write exactly if the new labels match the selector; if they do not,
   the slice goes on routing to a pod outside the Service until the next resync.
   */
  lemma RelabelledLeaderKeepsTheTraffic(w: World, s: System, svc: Service, pod: Pod, labels: StringMap, listing: seq<Pod>, now: Time, acts: seq<Action>)
    requires AtRest(s) && StoreOf(w, s.store) && Sticky(svc) && LeaderKey(svc) in s.store.slices
    requires TargetPod(s.store, LeaderKey(svc)) == Some(pod) && Healthy(pod) && Resolvable(svc.ports, Some(pod))
    requires s.store.slices[LeaderKey(svc)].body == BodyFor(svc, Some(pod))
    requires var t := Act(s, ChangePod(pod.key, Some(Relabelled(pod, labels))));
             && IsListing(listing, t.store, svc)
             && AllowedRun(w, t, acts) && forall i :: 0 <= i < |acts| ==> !Stirs(acts[i])
    ensures var u := After(w, Act(s, ChangePod(pod.key, Some(Relabelled(pod, labels)))), acts);
            && AtRest(u) && u.store.slices == s.store.slices
            && (u.store.slices[LeaderKey(svc)].body == WantedBody(u.store, svc, listing, now) <==> Matches(svc, Relabelled(pod, labels)))
  {
    hide LeaderServiceName, Choice, StoreOf, IsListing, AtRest, Stirs, AllowedRun, After, Resolvable, Healthy, TargetPod, Sticky, Matches,
      Act, BodyFor, WantedBody, Relabelled;
    TargetIsStored(w, s.store, svc, pod);
    RelabellingIsUnheard(s, pod.key, labels);
    RestLasts(w, Act(s, ChangePod(pod.key, Some(Relabelled(pod, labels)))), acts);
    WantedAfterRelabelling(w, s.store, svc, pod, labels, listing, now);
  }

  lemma TargetIsStored(w: World, store: Store, svc: Service, pod: Pod)
    requires StoreOf(w, store) && TargetPod(store, LeaderKey(svc)) == Some(pod)
    ensures pod.key in store.pods && store.pods[pod.key] == pod
  {
    hide LeaderServiceName, SlicesOf, ServicesOf;
  }

  lemma ListedIffMatching(store: Store, svc: Service, listing: seq<Pod>, pod: Pod)
    requires IsListing(listing, store, svc) && pod.key in store.pods && store.pods[pod.key] == pod
    ensures pod in listing <==> Matches(svc, pod)
  {
  }

  lemma HealthyTargetIsChosen(w: World, store: Store, svc: Service, listing: seq<Pod>, now: Time, pod: Pod)
    requires StoreOf(w, store) && IsListing(listing, store, svc) && Sticky(svc) && LeaderKey(svc) in store.slices
    requires TargetPod(store, LeaderKey(svc)) == Some(pod) && Healthy(pod) && pod in listing
    ensures Choice(store, svc, listing, now) == Some(pod)
  {
    hide LeaderServiceName, StickyLeader, Eldest, IsPodReady;
    StickyHitIsTarget(w, store, svc, listing);
  }

  // ---------- A newcomer by its labels ----------

  /** A pod that does not match is relabelled so that it does: the listing grows by it. */
  ghost predicate Joins(store: Store, svc: Service, pod: Pod, labels: StringMap) {
    pod.key in store.pods && store.pods[pod.key] == pod && !Matches(svc, pod) && Matches(svc, Relabelled(pod, labels))
  }

  lemma ListingGrows(store: Store, svc: Service, pod: Pod, labels: StringMap, one: seq<Pod>, other: seq<Pod>)
    requires (forall k :: k in store.pods ==> store.pods[k].key == k) && Joins(store, svc, pod, labels)
    requires IsListing(one, store, svc) && IsListing(other, RelabelledIn(store, pod, labels), svc)
    ensures forall p :: p in other <==> p in one || p == Relabelled(pod, labels)
    ensures Relabelled(pod, labels) !in one && pod !in one
  {
    hide Matches;
  }

  lemma EldestWithNewcomer(one: seq<Pod>, other: seq<Pod>, newcomer: Pod, d: Time, now: Time)
    requires Distinct(one) && Distinct(other) && newcomer !in one && forall p :: p in other <==> p in one || p == newcomer
    ensures var eldest := Eldest(one, d, now);
            Eldest(other, d, now) ==
            if Eligible(newcomer, d, now) && (eldest.Some? ==> Older(newcomer, eldest.value)) then Some(newcomer) else eldest
  {
    hide IsPodReady, Eligible, Older;
    EldestIsEldest(one, d, now);
    EldestIsEldest(other, d, now);
    var before, after := Eldest(one, d, now), Eldest(other, d, now);
    if before.Some? {
      KeysOfDistinct(other, before.value, newcomer);
      OlderIsStrictTotalOrder(before.value, newcomer, before.value);
      if after.Some? && after.value != before.value {
        KeysOfDistinct(other, before.value, after.value);
        OlderIsStrictTotalOrder(before.value, after.value, before.value);
      }
    }
    if after.Some? && after.value != newcomer {
      KeysOfDistinct(other, after.value, newcomer);
      OlderIsStrictTotalOrder(after.value, newcomer, after.value);
    }
  }

  /** A choice is the target that is held, else the eldest. */
  lemma ChoiceIsHeldOrEldest(w: World, store: Store, svc: Service, listing: seq<Pod>, now: Time)
    requires StoreOf(w, store) && IsListing(listing, store, svc)
    ensures Choice(store, svc, listing, now) ==
            if Held(store, svc, listing) then TargetPod(store, LeaderKey(svc)) else Eldest(listing, MinReadyDuration(svc), now)
  {
    hide LeaderServiceName, MinReadyDuration, IsPodReady, StickyLeader, Eldest;
    if LeaderKey(svc) in store.slices { StickyHitIsTarget(w, store, svc, listing); }
  }

  /** The target is held among the pods after as it was before. */
  lemma HeldAmongMore(w: World, store: Store, svc: Service, pod: Pod, labels: StringMap, one: seq<Pod>, other: seq<Pod>)
    requires StoreOf(w, store) && Joins(store, svc, pod, labels) && TargetPod(store, LeaderKey(svc)) != Some(pod)
    requires IsListing(one, store, svc) && IsListing(other, RelabelledIn(store, pod, labels), svc)
    ensures var after := RelabelledIn(store, pod, labels);
            && StoreOf(w, after) && TargetPod(after, LeaderKey(svc)) == TargetPod(store, LeaderKey(svc))
            && Held(after, svc, other) == Held(store, svc, one)
  {
    hide LeaderServiceName, Healthy, Sticky, Matches, ServicesOf, SlicesOf;
    ListingGrows(store, svc, pod, labels, one, other);
    OtherPodRelabelled(w, store, svc, pod, labels);
  }

  /**
   Another pod is relabelled into the Service. A reconcile would now choose it exactly if no target
   is held and it is eligible and senior to the pod chosen before; else it would choose as before.
   */
  lemma NewcomerIsChosenIff(w: World, store: Store, svc: Service, pod: Pod, labels: StringMap, one: seq<Pod>, other: seq<Pod>, now: Time)
    requires StoreOf(w, store) && Joins(store, svc, pod, labels) && TargetPod(store, LeaderKey(svc)) != Some(pod)
    requires IsListing(one, store, svc) && IsListing(other, RelabelledIn(store, pod, labels), svc)
    ensures var newcomer, eldest, d := Relabelled(pod, labels), Eldest(one, MinReadyDuration(svc), now), MinReadyDuration(svc);
            Choice(RelabelledIn(store, pod, labels), svc, other, now) ==
            if !Held(store, svc, one) && Eligible(newcomer, d, now) && (eldest.Some? ==> Older(newcomer, eldest.value)) then Some(newcomer)
            else Choice(store, svc, one, now)
  {
    hide LeaderServiceName, MinReadyDuration, Eldest, Matches, Older, Eligible, StoreOf, Held, Choice, TargetPod;
    var after := RelabelledIn(store, pod, labels);
    HeldAmongMore(w, store, svc, pod, labels, one, other);
    assert PodsOf(w, store.pods) && PodsOf(w, after.pods) by { PodsOfStores(w, store, after); }
    ListingGrows(store, svc, pod, labels, one, other);
    ListingIsDistinct(w, one, store, svc);
    ListingIsDistinct(w, other, after, svc);
    EldestWithNewcomer(one, other, Relabelled(pod, labels), MinReadyDuration(svc), now);
    ChoiceIsHeldOrEldest(w, store, svc, one, now);
    ChoiceIsHeldOrEldest(w, after, svc, other, now);
  }

  lemma PodsOfStores(w: World, store: Store, after: Store)
    requires StoreOf(w, store) && StoreOf(w, after)
    ensures PodsOf(w, store.pods) && PodsOf(w, after.pods)
  {
  }

  lemma OtherPodRelabelled(w: World, store: Store, svc: Service, pod: Pod, labels: StringMap)
    requires StoreOf(w, store) && pod.key in store.pods && store.pods[pod.key] == pod && TargetPod(store, LeaderKey(svc)) != Some(pod)
    ensures var after := RelabelledIn(store, pod, labels);
            StoreOf(w, after) && TargetPod(after, LeaderKey(svc)) == TargetPod(store, LeaderKey(svc))
  {
    hide LeaderServiceName, ServicesOf;
  }
}
