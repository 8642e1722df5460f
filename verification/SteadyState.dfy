/**
 What later reconciles do to the work of earlier ones: a healthy leader is kept over whole runs,
 a second reconcile writes nothing, and a crash between two writes does not show in the end.
 */
module SteadyState {
  import opened Wrappers
  import opened Kube
  import opened Selection
  import opened Routing
  import opened OptedIn
  import opened Reconciling
  import opened Runs
  import opened CacheTransparency

  // ---------- Selecting twice ----------

  lemma {:induction false} EldestIgnoresClock(pods: seq<Pod>, minReady: Time, now: Time, later: Time)
    requires minReady <= 0
    ensures Eldest(pods, minReady, now) == Eldest(pods, minReady, later)
  {
    if pods != [] { EldestIgnoresClock(pods[1..], minReady, now, later); }
  }

  /** Two answers to the same List lead to the same eldest pod. */
  lemma EldestOfListings(w: World, store: Store, svc: Service, one: seq<Pod>, other: seq<Pod>, minReady: Time, now: Time, later: Time)
    requires PodsOf(w, store.pods) && IsListing(one, store, svc) && IsListing(other, store, svc) && minReady <= 0
    ensures Eldest(one, minReady, now) == Eldest(other, minReady, later)
  {
    ListingIsDistinct(w, one, store, svc);
    ListingIsDistinct(w, other, store, svc);
    EldestIgnoresOrder(one, other, minReady, now);
    EldestIgnoresClock(other, minReady, now, later);
  }

  /** A sticky hit is the stored pod the slice routes to. */
  lemma StickyHitIsTarget(w: World, store: Store, svc: Service, listing: seq<Pod>)
    requires StoreOf(w, store) && IsListing(listing, store, svc) && LeaderKey(svc) in store.slices
    ensures var hit, target := StickyLeader(store.slices[LeaderKey(svc)].body.endpoints, listing), TargetPod(store, LeaderKey(svc));
            && (hit.Some? ==> hit == target)
            && (target.Some? && target.value in listing && IsPodReady(target.value) ==> hit == target)
  {
    hide LeaderServiceName, IsPodReady;
    ListingIsDistinct(w, listing, store, svc);
    var endpoints := store.slices[LeaderKey(svc)].body.endpoints;
    assert StickyLeader(endpoints[1..], listing) == None;
  }

  /** The slice's target is the chosen pod, if the chosen pod has an address. */
  ghost predicate TargetsChoice(store: Store, key: NamespacedName, choice: Option<Pod>) {
    && key in store.slices
    && Target(store.slices[key]) ==
       if Addressed(choice) then Some(TargetRef("Pod", choice.value.key, choice.value.uid)) else None
  }

  /** Once the slice routes to the choice, choosing again gives the same pod, whenever and however listed. */
  lemma ChoiceRepeats(w: World, store: Store, after: Store, svc: Service, one: seq<Pod>, other: seq<Pod>, now: Time, later: Time)
    requires StoreOf(w, store) && StoreOf(w, after) && after.pods == store.pods && MinReadyDuration(svc) <= 0
    requires IsListing(one, store, svc) && IsListing(other, store, svc)
    requires TargetsChoice(after, LeaderKey(svc), Choice(store, svc, one, now))
    ensures Choice(after, svc, other, later) == Choice(store, svc, one, now)
  {
    hide LeaderServiceName, MinReadyDuration, Sticky, IsPodReady, StickyLeader, Eldest;
    EldestOfListings(w, store, svc, one, other, MinReadyDuration(svc), now, later);
    if LeaderKey(svc) in store.slices { StickyHitIsTarget(w, store, svc, one); }
    StickyHitIsTarget(w, after, svc, other);
  }

  // ---------- Sticky stability ----------

  /** The pod with this UID is listed for k, healthy, and resolves k's ports; k is sticky and has its slice. */
  ghost predicate Fit(w: World, d: Director, k: NamespacedName, uid: UID) {
    && k in d.store.services && Source(d.store.services[k]) && Sticky(d.store.services[k])
    && w.leader(k) in d.store.slices
    && w.home(uid) in d.store.pods
    && var svc, pod := d.store.services[k], d.store.pods[w.home(uid)];
       pod.uid == uid && Matches(svc, pod) && Healthy(pod) && Resolvable(svc.ports, Some(pod))
  }

  ghost predicate FitThroughout(w: World, d: Director, steps: seq<Step>, k: NamespacedName, uid: UID)
    decreases |steps|
  {
    Fit(w, d, k, uid) && (steps != [] ==> FitThroughout(w, Next(d, steps[0]), steps[1..], k, uid))
  }

  ghost predicate LedBy(w: World, d: Director, k: NamespacedName, uid: UID) {
    w.leader(k) in d.store.slices && Target(d.store.slices[w.leader(k)]) == Some(TargetRef("Pod", w.home(uid), uid))
  }

  lemma HealthyPods(pod: Pod)
    requires Healthy(pod)
    ensures IsPodReady(pod) && pod.podIP != ""
  {
  }

  lemma FitPodIsChosen(w: World, d: Director, k: NamespacedName, a: Answers, uid: UID)
    requires StoreOf(w, d.store) && CacheAgrees(w, d)
    requires Fit(w, d, k, uid) && LedBy(w, d, k, uid) && a.failing == {} && IsListing(a.listing, d.store, d.store.services[k])
    ensures Chosen(d, d.store.services[k], a).0 == Some(d.store.pods[w.home(uid)])
  {
    hide LeaderServiceName, Choose, Source, Healthy, Sticky, StickyLeader, Resolvable;
    var svc, pod := d.store.services[k], d.store.pods[w.home(uid)];
    assert pod in a.listing;
    HealthyPods(pod);
    ChooseIsChoice(w, d, svc, a);
    StickyHitIsTarget(w, d.store, svc, a.listing);
  }

  lemma FitLeaderIsKept(w: World, d: Director, step: Step, k: NamespacedName, uid: UID)
    requires StoreOf(w, d.store) && LeaderNamesDistinct(w) && CacheAgrees(w, d)
    requires Admissible(w, d, step) && Clean(d, step)
    requires Fit(w, d, k, uid) && LedBy(w, d, k, uid) && w.leader(k) in Next(d, step).store.slices
    ensures LedBy(w, Next(d, step), k, uid)
  {
    hide LeaderServiceName, Route, Choose, Enabled, Reconcile, Carries, Healthy, Sticky, Resolvable;
    if step.Reconciles? {
      var request, a := step.request, step.answers;
      ReconcileRoutesOrCleans(d, request, a);
      if Routes(d, request, a) {
        var svc := d.store.services[request];
        var chosen := Chosen(d, svc, a).0;
        RouteWrites(d.store, svc, chosen, a);
        if request == k {
          FitPodIsChosen(w, d, k, a, uid);
          HealthyPods(chosen.value);
          BodyRefersToChosen(w, Route(d.store, svc, chosen, a).store.slices[LeaderKey(svc)], svc, chosen);
        }
      }
    }
  }

  /**
   Sticky stability: while the pod a slice routes to stays listed, healthy and resolvable, the
   slice keeps routing to it, whatever older pods appear and whatever cache entries expire.
   */
  lemma {:induction false} FitLeaderIsKeptThroughout(w: World, d: Director, steps: seq<Step>, k: NamespacedName, uid: UID)
    requires StoreOf(w, d.store) && LeaderNamesDistinct(w) && CacheAgrees(w, d) && CleanRun(w, d, steps)
    requires FitThroughout(w, d, steps, k, uid) && LedBy(w, d, k, uid)
    ensures LedBy(w, Run(d, steps), k, uid)
    decreases |steps|
  {
    if steps != [] {
      StoreStaysWellFormed(w, d, steps[0]);
      AgreementIsInductive(w, d, steps[0]);
      FitLeaderIsKept(w, d, steps[0], k, uid);
      FitLeaderIsKeptThroughout(w, Next(d, steps[0]), steps[1..], k, uid);
    }
  }

  // ---------- Quiescence ----------

  /** A source with flap damping off, at least one port, and a leader Service name other than its own. */
  ghost predicate Plain(svc: Service) {
    && Source(svc) && MinReadyDuration(svc) <= 0 && |svc.ports| > 0 && LeaderKey(svc) != svc.key
    && svc.annotations.Keys !! {ANNOTATION_CURRENT_LEADER, ANNOTATION_LEADER_POD_NAME, ANNOTATION_LEADER_POD_UID}
  }

  lemma UpdatedIsSettled(stored: Service, svc: Service, leader: Option<Pod>, ports: seq<ServicePort>, now: Time, later: Time)
    ensures var u := UpdatedLeaderService(stored, svc, leader, ports, now);
            UpdatedLeaderService(u, svc, leader, ports, later) == u
  {
  }

  lemma NewIsSettled(svc: Service, leader: Option<Pod>, ports: seq<ServicePort>, now: Time, uid: UID, later: Time)
    requires svc.annotations.Keys !! {ANNOTATION_CURRENT_LEADER, ANNOTATION_LEADER_POD_NAME, ANNOTATION_LEADER_POD_UID}
    ensures var n := NewLeaderService(svc, leader, ports, now, uid);
            UpdatedLeaderService(n, svc, leader, ports, later) == n
  {
  }

  /** The leader Service is as a write for this leader left it, at whatever time. */
  ghost predicate ServiceSettled(services: map<NamespacedName, Service>, svc: Service, leader: Option<Pod>, ports: seq<ServicePort>) {
    LeaderKey(svc) in services
    && forall now :: UpdatedLeaderService(services[LeaderKey(svc)], svc, leader, ports, now) == services[LeaderKey(svc)]
  }

  lemma WriteSettlesService(store: Store, svc: Service, leader: Option<Pod>, ports: seq<ServicePort>, a: Answers)
    requires a.failing == {} && Plain(svc)
    requires forall k :: k in store.services ==> store.services[k].key == k
    ensures ServiceSettled(WriteLeaderService(store, svc, leader, ports, a).store.services, svc, leader, ports)
  {
    hide LeaderServiceName, NewLeaderService, UpdatedLeaderService;
    var key := LeaderKey(svc);
    forall later ensures var u := WriteLeaderService(store, svc, leader, ports, a).store.services[key];
                         UpdatedLeaderService(u, svc, leader, ports, later) == u {
      if key in store.services {
        UpdatedIsSettled(store.services[key], svc, leader, ports, a.now, later);
      } else {
        NewIsSettled(svc, leader, ports, a.now, a.freshUid, later);
      }
    }
  }

  /** What a successful routing leaves behind. */
  ghost predicate Settled(store: Store, svc: Service, chosen: Option<Pod>) {
    && LeaderKey(svc) in store.slices && Carries(store.slices[LeaderKey(svc)], svc, chosen)
    && ServiceSettled(store.services, svc, Routed(svc, chosen), RoutedPorts(svc, chosen))
  }

  lemma RouteSettles(store: Store, svc: Service, chosen: Option<Pod>, a: Answers)
    requires forall k :: k in store.slices ==> store.slices[k].key == k
    requires forall k :: k in store.services ==> store.services[k].key == k
    requires a.failing == {} && Plain(svc)
    ensures Route(store, svc, chosen, a).ok && Settled(Route(store, svc, chosen, a).store, svc, chosen)
  {
    hide LeaderServiceName, WriteLeaderService, WriteSlice, Plain, ServiceSettled;
    var dropped := if Resolvable(svc.ports, chosen) then Outcome(store, [], true) else DropSlice(store, LeaderKey(svc), a);
    WriteSettlesService(dropped.store, svc, Routed(svc, chosen), RoutedPorts(svc, chosen), a);
    PublishWrites(store, svc, chosen, a);
    assert |svc.ports| > 0 by { PlainHasPorts(svc); }
    SliceWrites(Publish(store, svc, chosen, a).store, svc, chosen, a);
  }

  lemma PlainHasPorts(svc: Service)
    requires Plain(svc)
    ensures |svc.ports| > 0
  {
  }

  /**
   Routing to the pod that is already routed to writes nothing exactly when its ports resolve:
   a failed resolution deletes the slice and creates it anew, each time.
   */
  lemma RoutingAgainWritesNothingIffResolvable(store: Store, svc: Service, chosen: Option<Pod>, a: Answers)
    requires Settled(store, svc, chosen) && a.failing == {} && Plain(svc)
    ensures Route(store, svc, chosen, a).writes == [] <==> Resolvable(svc.ports, chosen)
  {
    hide LeaderServiceName, LeaderBody, SliceLabels, NewLeaderService, UpdatedLeaderService;
    ResolutionIsAllOrNothing(svc.ports, chosen);
  }

  /** After a failed resolution every later routing writes, whatever it routes to. */
  lemma UnresolvedIsRewritten(store: Store, svc: Service, chosen: Option<Pod>, next: Option<Pod>, a: Answers)
    requires Settled(store, svc, chosen) && a.failing == {} && |svc.ports| > 0
    requires !Resolvable(svc.ports, chosen)
    ensures Route(store, svc, next, a).writes != []
  {
    hide LeaderServiceName, SliceLabels, NewLeaderService, UpdatedLeaderService, LeaderEndpoint;
    ResolutionIsAllOrNothing(svc.ports, next);
  }

  /** With reads that succeed, the chosen leader is read off the store, also when no pod is listed. */
  lemma ChosenIsChoice(w: World, d: Director, svc: Service, a: Answers)
    requires SlicesOf(w, d.store.slices) && CacheAgrees(w, d)
    requires LeaderKey(svc) == w.leader(svc.key) && a.failing == {}
    ensures Chosen(d, svc, a).0 == Choice(d.store, svc, a.listing, a.now)
  {
    hide LeaderServiceName, Choose;
    ChooseIsChoice(w, d, svc, a);
  }

  /** A clean reconcile of a plain source. */
  ghost predicate PlainReconcile(w: World, d: Director, k: NamespacedName, a: Answers) {
    && StoreOf(w, d.store) && LeaderNamesDistinct(w) && CacheAgrees(w, d)
    && Admissible(w, d, Reconciles(k, a)) && a.failing == {}
    && Routes(d, k, a) && Plain(d.store.services[k])
  }

  /** It succeeds, leaves the Service and the pods alone, and settles the store for its choice. */
  lemma PlainReconcileSettles(w: World, d: Director, k: NamespacedName, a: Answers)
    requires PlainReconcile(w, d, k, a)
    ensures var r, svc := Reconcile(d, k, a), d.store.services[k];
            var choice := Choice(d.store, svc, a.listing, a.now);
            && r.ok && r.writes == Route(d.store, svc, choice, a).writes
            && Settled(r.director.store, svc, choice)
            && OnlyAt(LeaderKey(svc), d.store, r.director.store)
            && k in r.director.store.services && r.director.store.services[k] == svc
            && StoreOf(w, r.director.store) && CacheAgrees(w, r.director)
            && (Resolvable(svc.ports, choice) ==> TargetsChoice(r.director.store, LeaderKey(svc), choice))
  {
    hide LeaderServiceName, Route, Choose, Reconcile, Chosen, Choice, MinReadyDuration, Carries, ServiceSettled, Resolvable;
    var svc := d.store.services[k];
    ReconcileRoutesOrCleans(d, k, a);
    ChosenIsChoice(w, d, svc, a);
    var choice := Choice(d.store, svc, a.listing, a.now);
    RouteWrites(d.store, svc, choice, a);
    RouteSettles(d.store, svc, choice, a);
    StoreStaysWellFormed(w, d, Reconciles(k, a));
    AgreementIsInductive(w, d, Reconciles(k, a));
    BodyRefersToChosen(w, Route(d.store, svc, choice, a).store.slices[LeaderKey(svc)], svc, choice);
  }

  /**
   Quiescence. With pods and Services unchanged, a second successful reconcile writes nothing
   exactly when the ports of the pod chosen first resolve.
   */
  lemma QuiescentIffPortsResolve(w: World, d: Director, k: NamespacedName, a: Answers, b: Answers)
    requires PlainReconcile(w, d, k, a)
    requires b.failing == {} && Admissible(w, Reconcile(d, k, a).director, Reconciles(k, b))
    ensures var svc, d1 := d.store.services[k], Reconcile(d, k, a).director;
            Reconcile(d1, k, b).writes == [] <==> Resolvable(svc.ports, Choice(d.store, svc, a.listing, a.now))
  {
    hide LeaderServiceName, Route, Reconcile, Choice, Settled, MinReadyDuration, TargetsChoice, Resolvable;
    var svc, d1 := d.store.services[k], Reconcile(d, k, a).director;
    PlainReconcileSettles(w, d, k, a);
    PlainReconcileSettles(w, d1, k, b);
    var choice := Choice(d.store, svc, a.listing, a.now);
    if Resolvable(svc.ports, choice) {
      ListingStays(d.store, d1.store, svc, b.listing);
      ChoiceRepeats(w, d.store, d1.store, svc, a.listing, b.listing, a.now, b.now);
      RoutingAgainWritesNothingIffResolvable(d1.store, svc, choice, b);
    } else {
      UnresolvedIsRewritten(d1.store, svc, choice, Choice(d1.store, svc, b.listing, b.now), b);
    }
  }

  lemma ListingStays(store: Store, after: Store, svc: Service, listing: seq<Pod>)
    requires IsListing(listing, after, svc) && after.pods == store.pods
    ensures IsListing(listing, store, svc)
  {
  }

  // ---------- Crash and restart ----------

  /** A restarted director: the store is all that is left. */
  function Restarted(store: Store, cacheEnabled: bool): Director {
    Director(store, if cacheEnabled then Some(map[]) else None, map[])
  }

  /** The writes of a routing whose ports resolve: at most the leader Service, then at most the slice. */
  lemma RouteWritesServiceThenSlice(store: Store, svc: Service, chosen: Option<Pod>, a: Answers)
    requires Resolvable(svc.ports, chosen)
    ensures var o := Route(store, svc, chosen, a);
            var served := WriteLeaderService(store, svc, chosen, RoutedPorts(svc, chosen), a);
            && |o.writes| <= 2 && served.writes <= o.writes && |o.writes| <= |served.writes| + 1 && |served.writes| <= 1
            && o.store == ApplyWrites(store, o.writes)
            && (o.ok ==> o.store == WriteSlice(served.store, svc, chosen, RoutedPorts(svc, chosen), a).store)
  {
    hide LeaderServiceName, LeaderBody, SliceLabels, NewLeaderService, UpdatedLeaderService, AllNumbered, Resolvable, ApplyWrites;
  }

  /** Routing again from the point after the leader Service was written ends in the same store. */
  lemma RouteResumes(store: Store, svc: Service, chosen: Option<Pod>, a: Answers, b: Answers)
    requires forall k :: k in store.slices ==> store.slices[k].key == k
    requires forall k :: k in store.services ==> store.services[k].key == k
    requires Resolvable(svc.ports, chosen) && Plain(svc) && a.failing == b.failing == {}
    ensures var served := WriteLeaderService(store, svc, chosen, RoutedPorts(svc, chosen), a);
            Route(served.store, svc, chosen, b).store == Route(store, svc, chosen, a).store
  {
    hide LeaderServiceName, LeaderBody, NewLeaderService, UpdatedLeaderService, AllNumbered, Resolvable, ApplyWrites, Plain;
    WriteSettlesService(store, svc, chosen, RoutedPorts(svc, chosen), a);
    LeaderServiceWrites(store, svc, chosen, RoutedPorts(svc, chosen), a);
  }

  lemma ChoiceIgnoresOrderAndClock(w: World, store: Store, after: Store, svc: Service, one: seq<Pod>, other: seq<Pod>, now: Time, later: Time)
    requires StoreOf(w, store) && MinReadyDuration(svc) <= 0
    requires after.pods == store.pods && after.slices == store.slices
    requires IsListing(one, store, svc) && IsListing(other, store, svc)
    ensures Choice(after, svc, other, later) == Choice(store, svc, one, now)
  {
    hide LeaderServiceName, MinReadyDuration, Sticky, IsPodReady, StickyLeader, Eldest;
    EldestOfListings(w, store, svc, one, other, MinReadyDuration(svc), now, later);
    if LeaderKey(svc) in store.slices {
      ListingIsDistinct(w, one, store, svc);
      ListingIsDistinct(w, other, store, svc);
      StickyLeaderIgnoresOrder(store.slices[LeaderKey(svc)].body.endpoints, one, other);
    }
  }

  lemma CrashAfterTheLastWrite(w: World, d: Director, k: NamespacedName, a: Answers, b: Answers, cacheEnabled: bool)
    requires PlainReconcile(w, d, k, a) && b.failing == {}
    requires Resolvable(d.store.services[k].ports, Choice(d.store, d.store.services[k], a.listing, a.now))
    requires Admissible(w, Restarted(Reconcile(d, k, a).director.store, cacheEnabled), Reconciles(k, b))
    ensures var done := Reconcile(d, k, a).director.store;
            var r := Reconcile(Restarted(done, cacheEnabled), k, b); r.ok && r.director.store == done
  {
    hide LeaderServiceName, Route, Reconcile, Choice, Settled, MinReadyDuration, TargetsChoice, Resolvable;
    var svc, done := d.store.services[k], Reconcile(d, k, a).director.store;
    PlainReconcileSettles(w, d, k, a);
    ListingStays(d.store, done, svc, b.listing);
    PlainReconcileSettles(w, Restarted(done, cacheEnabled), k, b);
    ChoiceRepeats(w, d.store, done, svc, a.listing, b.listing, a.now, b.now);
    RoutingAgainWritesNothingIffResolvable(done, svc, Choice(d.store, svc, a.listing, a.now), b);
  }

  lemma PlainIsWellFormed(w: World, d: Director, k: NamespacedName, a: Answers)
    requires PlainReconcile(w, d, k, a)
    ensures k in d.store.services && LeaderKey(d.store.services[k]) == w.leader(k) && a.failing == {} && Plain(d.store.services[k])
    ensures forall s :: s in d.store.services ==> d.store.services[s].key == s
    ensures forall s :: s in d.store.slices ==> d.store.slices[s].key == s
  {
  }

  lemma PlainIsUndamped(svc: Service)
    requires Plain(svc)
    ensures Source(svc) && MinReadyDuration(svc) <= 0 && LeaderKey(svc) != svc.key
  {
  }

  lemma CrashedIsWellFormed(w: World, d: Director, k: NamespacedName, a: Answers, crashed: Store)
    requires PlainReconcile(w, d, k, a)
    requires OnlyAt(w.leader(k), d.store, crashed) && crashed.slices == d.store.slices && SelectorLess(w.leader(k), d.store, crashed)
    ensures StoreOf(w, d.store) && StoreOf(w, crashed)
  {
    hide LeaderServiceName, Enabled, SingleEndpoint, PodsOf, Plain, Routes, IsLabelledListing, IsListing;
  }

  /** A restart from a store that differs only in the leader Service can reconcile the source again. */
  lemma RestartIsPlain(w: World, d: Director, k: NamespacedName, a: Answers, crashed: Store, b: Answers, cacheEnabled: bool)
    requires PlainReconcile(w, d, k, a) && b.failing == {}
    requires OnlyAt(w.leader(k), d.store, crashed) && crashed.slices == d.store.slices && SelectorLess(w.leader(k), d.store, crashed)
    requires Admissible(w, Restarted(crashed, cacheEnabled), Reconciles(k, b))
    ensures PlainReconcile(w, Restarted(crashed, cacheEnabled), k, b)
    ensures var svc := d.store.services[k];
            && k in crashed.services && crashed.services[k] == svc && crashed.pods == d.store.pods
            && IsListing(a.listing, d.store, svc) && IsListing(b.listing, d.store, svc)
            && StoreOf(w, d.store) && MinReadyDuration(svc) <= 0
  {
    hide LeaderServiceName, MinReadyDuration, Enabled, SingleEndpoint, Matches, PodsOf, IsLabelledListing, Plain, StoreOf;
    PlainIsWellFormed(w, d, k, a);
    CrashedIsWellFormed(w, d, k, a, crashed);
    PlainIsUndamped(d.store.services[k]);
  }

  lemma CrashBetweenTheWrites(w: World, d: Director, k: NamespacedName, a: Answers, crashed: Store, b: Answers, cacheEnabled: bool)
    requires PlainReconcile(w, d, k, a) && b.failing == {}
    requires var svc := d.store.services[k];
             var choice := Choice(d.store, svc, a.listing, a.now);
             Resolvable(svc.ports, choice)
             && crashed == WriteLeaderService(d.store, svc, choice, RoutedPorts(svc, choice), a).store
    requires Admissible(w, Restarted(crashed, cacheEnabled), Reconciles(k, b))
    ensures var r := Reconcile(Restarted(crashed, cacheEnabled), k, b);
            r.ok && r.director.store == Reconcile(d, k, a).director.store
  {
    hide LeaderServiceName, Route, Reconcile, Choice, Settled, MinReadyDuration, TargetsChoice, Resolvable, RoutedPorts, WriteLeaderService,
      OnlyAt, SelectorLess, Admissible, IsListing, StoreOf, CacheAgrees, Routes, Plain, PlainReconcile;
    PlainIsWellFormed(w, d, k, a);
    var svc := d.store.services[k];
    var choice := Choice(d.store, svc, a.listing, a.now);
    PlainReconcileSettles(w, d, k, a);
    LeaderServiceWrites(d.store, svc, choice, RoutedPorts(svc, choice), a);
    RestartIsPlain(w, d, k, a, crashed, b, cacheEnabled);
    PlainReconcileSettles(w, Restarted(crashed, cacheEnabled), k, b);
    ChoiceIgnoresOrderAndClock(w, d.store, crashed, svc, a.listing, b.listing, a.now, b.now);
    RouteResumes(d.store, svc, choice, a, b);
  }

  /**
   Crash and restart. A director that crashes after any write of a reconcile whose ports resolve,
   restarts with empty caches and reconciles again ends in the very store of the uninterrupted
   reconcile: same slice, same leader annotations, even the same switch time.
   */
  lemma CrashRestartEndsTheSame(w: World, d: Director, k: NamespacedName, a: Answers, n: nat, b: Answers, cacheEnabled: bool)
    requires PlainReconcile(w, d, k, a)
    requires Resolvable(d.store.services[k].ports, Choice(d.store, d.store.services[k], a.listing, a.now))
    requires 1 <= n <= |Reconcile(d, k, a).writes|
    requires b.failing == {}
    requires Admissible(w, Restarted(ApplyWrites(d.store, Reconcile(d, k, a).writes[..n]), cacheEnabled), Reconciles(k, b))
    ensures var crashed := ApplyWrites(d.store, Reconcile(d, k, a).writes[..n]);
            var r := Reconcile(Restarted(crashed, cacheEnabled), k, b);
            r.ok && r.director.store == Reconcile(d, k, a).director.store
  {
    hide LeaderServiceName, Route, Reconcile, Choice, Settled, Resolvable, RoutedPorts, WriteSlice, WriteLeaderService, Admissible, Plain;
    var svc, whole := d.store.services[k], Reconcile(d, k, a);
    var choice := Choice(d.store, svc, a.listing, a.now);
    PlainReconcileSettles(w, d, k, a);
    RouteWritesServiceThenSlice(d.store, svc, choice, a);
    if n == |whole.writes| {
      assert whole.writes[..n] == whole.writes;
      CrashAfterTheLastWrite(w, d, k, a, b, cacheEnabled);
    } else {
      var served := WriteLeaderService(d.store, svc, choice, RoutedPorts(svc, choice), a);
      assert whole.writes[..n] == served.writes;
      CrashBetweenTheWrites(w, d, k, a, served.store, b, cacheEnabled);
    }
  }
}
