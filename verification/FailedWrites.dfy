/**
 What failing API calls do to the selection. The leader-pod cache is updated before the writes (line
 448), so the retry of a failed routing no longer sees the leader it was leaving; and the errors of
 the reads made during selection are swallowed.
 */
module FailedWrites {
  import opened Wrappers
  import opened Kube
  import opened Selection
  import opened Routing
  import opened Reconciling
  import opened Runs
  import opened CacheTransparency
  import opened SteadyState

  /** A reconcile of a plain source with a slice, in which the reads made for selection succeed and routing fails, whichever of its calls. */
  ghost predicate RoutingFails(w: World, d: Director, k: NamespacedName, a: Answers) {
    && StoreOf(w, d.store) && LeaderNamesDistinct(w) && CacheAgrees(w, d) && d.leaderCache.Some?
    && Admissible(w, d, Reconciles(k, a)) && a.failing !! {GetSlice, GetPod(0), GetSliceSticky}
    && Routes(d, k, a) && Plain(d.store.services[k])
    && LeaderKey(d.store.services[k]) in d.store.slices
    && !Reconcile(d, k, a).ok
  }

  lemma RoutingFailsFacts(w: World, d: Director, k: NamespacedName, a: Answers)
    requires RoutingFails(w, d, k, a)
    ensures k in d.store.services
    ensures var svc := d.store.services[k];
            && svc.key == k && LeaderKey(svc) == w.leader(k) && LeaderKey(svc) in d.store.slices
            && IsListing(a.listing, d.store, svc) && MinReadyDuration(svc) <= 0
            && StoreOf(w, d.store) && SlicesOf(w, d.store.slices) && CacheAgrees(w, d) && a.failing !! {GetSlice, GetPod(0), GetSliceSticky}
            && d.leaderCache.Some? && LeaderNamesDistinct(w)
  {
    hide Reconcile;
  }

  /** The slice's target is listed and Ready but not healthy (terminating, or without address), and a healthy pod was chosen instead. */
  ghost predicate LeavesReadyTarget(store: Store, svc: Service, listing: seq<Pod>, choice: Pod) {
    var target := TargetPod(store, LeaderKey(svc));
    && Sticky(svc) && Healthy(choice)
    && target.Some? && target.value != choice && target.value in listing && IsPodReady(target.value)
  }

  lemma RouteWithFailedPatch(store: Store, svc: Service, chosen: Option<Pod>, a: Answers)
    requires a.failing == {PatchSlice} && Resolvable(svc.ports, chosen) && LeaderKey(svc) in store.slices
    requires forall k :: k in store.services ==> store.services[k].key == k
    ensures !Route(store, svc, chosen, a).ok
  {
    hide LeaderServiceName, WriteLeaderService, Resolvable, RoutedPorts, OnlyAt, LeaderBody;
    LeaderServiceWrites(store, svc, chosen, RoutedPorts(svc, chosen), a);
  }

  /** A failed routing whose ports resolve leaves the slices as they were. */
  lemma FailedRouteKeepsSlices(store: Store, svc: Service, chosen: Option<Pod>, a: Answers)
    requires forall k :: k in store.slices ==> store.slices[k].key == k
    requires forall k :: k in store.services ==> store.services[k].key == k
    requires !Route(store, svc, chosen, a).ok && Resolvable(svc.ports, chosen)
    ensures var o := Route(store, svc, chosen, a); o.store.slices == store.slices && OnlyAt(LeaderKey(svc), store, o.store)
  {
    hide LeaderServiceName, Publish, WriteSlice, Resolvable, RoutedPorts, OnlyAt;
    RouteWrites(store, svc, chosen, a);
    PublishWrites(store, svc, chosen, a);
    SliceWrites(Publish(store, svc, chosen, a).store, svc, chosen, a);
  }

  lemma FailedRoutingKeepsSlices(w: World, d: Director, k: NamespacedName, a: Answers)
    requires RoutingFails(w, d, k, a)
    requires var svc := d.store.services[k]; Resolvable(svc.ports, Choice(d.store, svc, a.listing, a.now))
    ensures var r, svc := Reconcile(d, k, a), d.store.services[k];
            && r.director.store.slices == d.store.slices && r.director.store.pods == d.store.pods
            && k in r.director.store.services && r.director.store.services[k] == svc
            && r.director.leaderCache == Chosen(d, svc, a).1
            && Chosen(d, svc, a).0 == Choice(d.store, svc, a.listing, a.now)
  {
    hide LeaderServiceName, Choose, Reconcile, Choice, MinReadyDuration, Route, Resolvable;
    var svc := d.store.services[k];
    ReconcileRoutesOrCleans(d, k, a);
    AgreementEverywhere(w, d, k);
    ChooseIsChoice(w, d, svc, a);
    FailedRouteKeepsSlices(d.store, svc, Chosen(d, svc, a).0, a);
  }

  /** A change of leader away from the slice's target caches the new leader afresh. */
  lemma ChangeIsCached(w: World, d: Director, svc: Service, a: Answers)
    requires SlicesOf(w, d.store.slices) && CacheAgrees(w, d) && d.leaderCache.Some?
    requires LeaderKey(svc) == w.leader(svc.key) && a.failing !! {GetSlice, GetPod(0), GetSliceSticky}
    requires LeaderKey(svc) in d.store.slices && Target(d.store.slices[LeaderKey(svc)]).Some?
    ensures var (leader, after) := Choose(d.store, d.leaderCache, svc, a);
            leader.Some? && leader.value.uid != Target(d.store.slices[LeaderKey(svc)]).value.uid ==>
              after.Some? && svc.key in after.value && after.value[svc.key] == CachedLeader(leader.value, a.now + LEADER_POD_TTL)
  {
    hide LeaderServiceName, SelectLeader, Healthy;
    var endpoints := d.store.slices[LeaderKey(svc)].body.endpoints;
    assert ReferencedPod(d.store, endpoints, a.failing, 1) == None;
  }

  /** With a fresh entry for a stored pod, the current leader is that pod, whatever the slice says. */
  lemma CachedLeaderIsCurrent(store: Store, cache: LeaderCache, svc: Service, a: Answers, pod: Pod, now: Time)
    requires cache.Some? && svc.key in cache.value && cache.value[svc.key] == CachedLeader(pod, now + LEADER_POD_TTL)
    requires pod.key in store.pods && store.pods[pod.key] == pod
    requires a.now < now + LEADER_POD_TTL && a.failing == {}
    ensures Choose(store, cache, svc, a).0 == SelectLeader(svc, StickySlice(store, svc, a), a.listing, !Healthy(pod), a.now)
  {
    hide LeaderServiceName, SelectLeader, Healthy;
  }

  /** Selecting again next to a slice that refers to another pod than the choice. */
  lemma RetryAgainstTarget(w: World, store: Store, svc: Service, one: seq<Pod>, other: seq<Pod>, now: Time, later: Time)
    requires StoreOf(w, store) && MinReadyDuration(svc) <= 0 && LeaderKey(svc) in store.slices
    requires IsListing(one, store, svc) && IsListing(other, store, svc)
    requires var choice, target := Choice(store, svc, one, now), Target(store.slices[LeaderKey(svc)]);
             choice.Some? && target.Some? && target.value.uid != choice.value.uid
    ensures var choice := Choice(store, svc, one, now);
            var retry := SelectLeader(svc, Some(store.slices[LeaderKey(svc)]), other, !Healthy(choice.value), later);
            && (retry == choice <==> !LeavesReadyTarget(store, svc, one, choice.value))
            && (LeavesReadyTarget(store, svc, one, choice.value) ==> retry == TargetPod(store, LeaderKey(svc)))
  {
    hide LeaderServiceName, MinReadyDuration, Healthy, Sticky, IsPodReady, StickyLeader, Eldest;
    EldestOfListings(w, store, svc, one, other, MinReadyDuration(svc), now, later);
    StickyHitIsTarget(w, store, svc, one);
    StickyHitIsTarget(w, store, svc, other);
  }

  lemma SameUidIsTarget(w: World, store: Store, svc: Service, listing: seq<Pod>, choice: Pod)
    requires StoreOf(w, store) && LeaderKey(svc) in store.slices
    requires choice.key in store.pods && store.pods[choice.key] == choice
    requires Target(store.slices[LeaderKey(svc)]).Some? ==> Target(store.slices[LeaderKey(svc)]).value.uid == choice.uid
    ensures !LeavesReadyTarget(store, svc, listing, choice)
  {
  }

  /** The leader cache after the failed attempt: fresh if it left the slice's target for another pod, else in agreement. */
  lemma CacheAfterFailedRouting(w: World, d: Director, k: NamespacedName, a: Answers)
    requires RoutingFails(w, d, k, a)
    requires var svc := d.store.services[k]; Resolvable(svc.ports, Choice(d.store, svc, a.listing, a.now))
    ensures var svc, d1 := d.store.services[k], Reconcile(d, k, a).director;
            var choice, target := Choice(d.store, svc, a.listing, a.now), Target(d.store.slices[LeaderKey(svc)]);
            && (choice.Some? ==> choice.value.key in d.store.pods && d.store.pods[choice.value.key] == choice.value)
            && d1.leaderCache.Some?
            && if choice.Some? && target.Some? && target.value.uid != choice.value.uid then
                 k in d1.leaderCache.value && d1.leaderCache.value[k] == CachedLeader(choice.value, a.now + LEADER_POD_TTL)
               else CacheAgrees(w, d1)
  {
    hide LeaderServiceName, Choose, Reconcile, Choice, MinReadyDuration, Resolvable, RoutingFails, ServicesOf, IsPodReady;
    RoutingFailsFacts(w, d, k, a);
    var svc := d.store.services[k];
    FailedRoutingKeepsSlices(w, d, k, a);
    if a.listing != [] {
      ChooseCachesTheLeader(d.store, d.leaderCache, svc, a);
      if Choose(d.store, d.leaderCache, svc, a).0.None? { ChooseOfNoneCachesNone(d.store, d.leaderCache, svc, a); }
      if Target(d.store.slices[LeaderKey(svc)]).Some? { ChangeIsCached(w, d, svc, a); }
    }
  }

  /** A retry next to a cache in agreement selects what the first attempt selected. */
  lemma AgreedRetryRepeats(w: World, d: Director, k: NamespacedName, a: Answers, d1: Director, b: Answers)
    requires StoreOf(w, d.store) && k in d.store.services && LeaderKey(d.store.services[k]) == w.leader(k)
    requires MinReadyDuration(d.store.services[k]) <= 0 && b.failing == {}
    requires d1.store.slices == d.store.slices && d1.store.pods == d.store.pods && CacheAgrees(w, d1)
    requires IsListing(a.listing, d.store, d.store.services[k]) && IsListing(b.listing, d.store, d.store.services[k])
    ensures var svc := d.store.services[k];
            Choose(d1.store, d1.leaderCache, svc, b).0 == Choice(d.store, svc, a.listing, a.now)
  {
    hide LeaderServiceName, Choose, Choice, MinReadyDuration, IsListing, CacheAgrees;
    var svc := d.store.services[k];
    AgreementEverywhere(w, d1, k);
    ChoiceIgnoresOrderAndClock(w, d.store, d1.store, svc, a.listing, b.listing, a.now, b.now);
    ChooseIsChoice(w, d1, svc, b);
  }

  /** The first attempt was leaving a target that is still Ready. */
  ghost predicate WasLeaving(store: Store, svc: Service, listing: seq<Pod>, choice: Option<Pod>) {
    choice.Some? && LeavesReadyTarget(store, svc, listing, choice.value)
  }

  /**
   The retry of a routing that failed, whichever of its calls, selects the pod the first attempt
   selected exactly when the first attempt was not leaving a target that is still Ready; otherwise
   it goes back to that target. Without the cache it always repeats the first selection.
   */
  lemma RetryRepeatsIffTargetNotReady(w: World, d: Director, k: NamespacedName, a: Answers, b: Answers)
    requires RoutingFails(w, d, k, a) && b.failing == {} && a.now <= b.now < a.now + LEADER_POD_TTL
    requires var svc := d.store.services[k]; Resolvable(svc.ports, Choice(d.store, svc, a.listing, a.now))
    requires IsListing(b.listing, d.store, d.store.services[k])
    ensures var svc, d1 := d.store.services[k], Reconcile(d, k, a).director;
            var choice := Choice(d.store, svc, a.listing, a.now);
            && (Choose(d1.store, d1.leaderCache, svc, b).0 == choice <==> !WasLeaving(d.store, svc, a.listing, choice))
            && (WasLeaving(d.store, svc, a.listing, choice) ==>
                  Choose(d1.store, d1.leaderCache, svc, b).0 == TargetPod(d.store, LeaderKey(svc)))
            && Choose(d1.store, None, svc, b).0 == choice
  {
    hide LeaderServiceName, Choose, Reconcile, Choice, MinReadyDuration, LeavesReadyTarget, Resolvable, SelectLeader, CacheAgrees,
      IsListing, RoutingFails, StoreOf, SlicesOf;
    RoutingFailsFacts(w, d, k, a);
    var svc, d1 := d.store.services[k], Reconcile(d, k, a).director;
    var choice := Choice(d.store, svc, a.listing, a.now);
    FailedRoutingKeepsSlices(w, d, k, a);
    CacheAfterFailedRouting(w, d, k, a);
    NoCacheAgrees(w, d1);
    AgreedRetryRepeats(w, d, k, a, d1.(leaderCache := None), b);
    if choice.Some? && Target(d.store.slices[LeaderKey(svc)]).Some? && Target(d.store.slices[LeaderKey(svc)]).value.uid != choice.value.uid {
      CachedLeaderIsCurrent(d1.store, d1.leaderCache, svc, b, choice.value, a.now);
      RetryAgainstTarget(w, d.store, svc, a.listing, b.listing, a.now, b.now);
    } else {
      AgreedRetryRepeats(w, d, k, a, d1, b);
      if choice.Some? { SameUidIsTarget(w, d.store, svc, a.listing, choice.value); }
    }
  }

  lemma NoCacheAgrees(w: World, d: Director)
    ensures CacheAgrees(w, d.(leaderCache := None))
  {
  }

  // ---------- Reads whose errors are swallowed ----------

  /** The slice holds a listed, Ready pod that is not the eldest. */
  ghost predicate HoldsAnother(store: Store, svc: Service, listing: seq<Pod>, now: Time) {
    var target := TargetPod(store, LeaderKey(svc));
    Sticky(svc) && target.Some? && target.value in listing && IsPodReady(target.value) && Eldest(listing, MinReadyDuration(svc), now) != target
  }

  /** The failover that the store calls for: the pod held is unhealthy. */
  ghost predicate FailoverIsDue(store: Store, svc: Service, listing: seq<Pod>, now: Time) {
    HoldsAnother(store, svc, listing, now) && !Healthy(TargetPod(store, LeaderKey(svc)).value)
  }

  /**
   What swallowed errors and outdated cache entries cost, all together. Whatever calls fail and
   whatever is cached, the selection is as the store calls for exactly unless the slice holds a pod
   other than the eldest and the bypass of stickiness is at odds with that pod's health.
   */
  lemma SelectionOfStoreIsRightIff(w: World, d: Director, svc: Service, a: Answers)
    requires StoreOf(w, d.store) && IsListing(a.listing, d.store, svc)
    ensures var target, eldest := TargetPod(d.store, LeaderKey(svc)), Eldest(a.listing, MinReadyDuration(svc), a.now);
            var wrong := HoldsAnother(d.store, svc, a.listing, a.now) && (Healthy(target.value) <==> Bypasses(d, svc, a));
            && (Choose(d.store, d.leaderCache, svc, a).0 == Choice(d.store, svc, a.listing, a.now) <==> !wrong)
            && (wrong ==> Choose(d.store, d.leaderCache, svc, a).0 == if Healthy(target.value) then eldest else target)
  {
    hide LeaderServiceName, Healthy, IsPodReady, StickyLeader, Eldest, MinReadyDuration, Choose, Choice, Bypasses, Sticky;
    SelectionIsRightIff(d, svc, a);
    if LeaderKey(svc) in d.store.slices { StickyHitIsTarget(w, d.store, svc, a.listing); }
  }

  /**
   If the read for stickiness succeeds, and the cache agrees with the slice, the selection is as it
   should be exactly unless a failover is due and the current leader could not be read, be it the
   slice or the pod; then the target that another pod should replace is kept.
   */
  lemma FailedReadHidesFailover(w: World, d: Director, svc: Service, a: Answers)
    requires StoreOf(w, d.store) && AgreesAt(w, d, svc.key) && LeaderKey(svc) == w.leader(svc.key)
    requires GetSliceSticky !in a.failing && IsListing(a.listing, d.store, svc)
    ensures var hidden := FailoverIsDue(d.store, svc, a.listing, a.now) && LeaderUnread(d, svc, a);
            && (Choose(d.store, d.leaderCache, svc, a).0 == Choice(d.store, svc, a.listing, a.now) <==> !hidden)
            && (hidden ==> !Bypasses(d, svc, a) && Choose(d.store, d.leaderCache, svc, a).0 == TargetPod(d.store, LeaderKey(svc)))
  {
    hide LeaderServiceName, Healthy, IsPodReady, Eldest, MinReadyDuration, Choose, Choice, CurrentLeader, LeaderUnread, Sticky, IsListing,
      PodsOf, SlicesOf, ServicesOf;
    SelectionOfStoreIsRightIff(w, d, svc, a);
    if TargetPod(d.store, LeaderKey(svc)).Some? { UnreadOrTarget(w, d, svc, a); }
  }

  /**
   If the read of the slice for stickiness fails, whatever else does, the eldest eligible pod is
   chosen, which is as it should be exactly if no other, healthy pod is held.
   */
  lemma FailedStickyReadDropsTheLeader(w: World, d: Director, svc: Service, a: Answers)
    requires StoreOf(w, d.store) && GetSliceSticky in a.failing && IsListing(a.listing, d.store, svc)
    ensures var eldest := Eldest(a.listing, MinReadyDuration(svc), a.now);
            && Choose(d.store, d.leaderCache, svc, a).0 == eldest
            && (eldest == Choice(d.store, svc, a.listing, a.now) <==>
                  !(HoldsAnother(d.store, svc, a.listing, a.now) && Healthy(TargetPod(d.store, LeaderKey(svc)).value)))
  {
    hide LeaderServiceName, IsPodReady, Eldest, Healthy, MinReadyDuration, CurrentLeader, Choice, Sticky, HoldsAnother;
    SelectionOfStoreIsRightIff(w, d, svc, a);
  }

  /** Only calls that selection makes fail; routing makes others. */
  predicate OnlySelectionFails(a: Answers) {
    forall c :: c in a.failing ==> c.GetSlice? || c.GetSliceSticky? || c.GetPodCached? || c.GetPod?
  }

  lemma ServiceReadsItsOwn(store: Store, svc: Service, leader: Option<Pod>, ports: seq<ServicePort>, a: Answers)
    requires OnlySelectionFails(a)
    ensures WriteLeaderService(store, svc, leader, ports, a) == WriteLeaderService(store, svc, leader, ports, a.(failing := {}))
    ensures DropSlice(store, LeaderKey(svc), a) == DropSlice(store, LeaderKey(svc), a.(failing := {}))
  {
    hide LeaderServiceName, NewLeaderService, UpdatedLeaderService;
  }

  lemma SliceReadsItsOwn(store: Store, svc: Service, leader: Option<Pod>, ports: seq<ServicePort>, a: Answers)
    requires OnlySelectionFails(a)
    ensures WriteSlice(store, svc, leader, ports, a) == WriteSlice(store, svc, leader, ports, a.(failing := {}))
  {
    hide LeaderServiceName, SliceLabels, LeaderBody;
  }

  lemma RoutingReadsItsOwn(store: Store, svc: Service, chosen: Option<Pod>, a: Answers)
    requires OnlySelectionFails(a)
    ensures Route(store, svc, chosen, a) == Route(store, svc, chosen, a.(failing := {}))
  {
    hide LeaderServiceName, WriteLeaderService, WriteSlice, DropSlice, Resolvable, Routed, RoutedPorts, OnlySelectionFails;
    var leader, ports := Routed(svc, chosen), RoutedPorts(svc, chosen);
    ServiceReadsItsOwn(store, svc, leader, ports, a);
    ServiceReadsItsOwn(DropSlice(store, LeaderKey(svc), a).store, svc, leader, ports, a);
    SliceReadsItsOwn(Publish(store, svc, chosen, a).store, svc, leader, ports, a);
  }

  /**
   And nobody notices: a reconcile that hides a failover succeeds and routes to the target. If the
   slice and the leader Service were written for that target before, it writes nothing, so that
   before the next resync no event and no error asks for another reconcile.
   */
  lemma HiddenFailoverIsSilent(w: World, d: Director, k: NamespacedName, a: Answers)
    requires StoreOf(w, d.store) && Routes(d, k, a) && Plain(d.store.services[k])
    requires OnlySelectionFails(a) && IsListing(a.listing, d.store, d.store.services[k])
    requires var svc, target := d.store.services[k], TargetPod(d.store, w.leader(k));
             && FailoverIsDue(d.store, svc, a.listing, a.now) && !Bypasses(d, svc, a) && Resolvable(svc.ports, target)
    ensures var r, svc, target := Reconcile(d, k, a), d.store.services[k], TargetPod(d.store, w.leader(k));
            && r.ok && w.leader(k) in r.director.store.slices && Carries(r.director.store.slices[w.leader(k)], svc, target)
            && (Settled(d.store, svc, target) ==> r.writes == [] && r.director.store == d.store)
  {
    hide LeaderServiceName, Reconcile, Route, Choose, Choice, FailoverIsDue, Plain, Carries, Settled, Resolvable, MinReadyDuration, Bypasses;
    var svc, target := d.store.services[k], TargetPod(d.store, w.leader(k));
    PlainHasPorts(svc);
    ReconcileRoutesOrCleans(d, k, a);
    DueMeansListed(d.store, svc, a.listing, a.now);
    SelectionOfStoreIsRightIff(w, d, svc, a);
    var calm := a.(failing := {});
    RoutingReadsItsOwn(d.store, svc, target, a);
    RouteWrites(d.store, svc, target, calm);
    if Settled(d.store, svc, target) { RoutingAgainWritesNothingIffResolvable(d.store, svc, target, calm); }
  }

  lemma DueMeansListed(store: Store, svc: Service, listing: seq<Pod>, now: Time)
    requires FailoverIsDue(store, svc, listing, now)
    ensures listing != [] && HoldsAnother(store, svc, listing, now) && !Healthy(TargetPod(store, LeaderKey(svc)).value)
  {
  }
}
