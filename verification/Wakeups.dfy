/**
 No lost wakeups: a source whose slice differs from what a reconcile would now write is queued,
 is being reconciled to that effect, or has an event under way that will queue it.

 The hypotheses are that flap damping is off, that labels and container ports of pods stay, that a
 namespace has no more sources than its cache may hold, and that no selection misses a failover that
 the slice's target calls for. FailedWrites.dfy has the exact condition for the last, and shows what
 misses one; CacheFollowing.dfy proves that none is missed while the reads of the current leader
 succeed and no failing worker was leaving another target. Unheard.dfy shows what damping and labels do.
 */
module Wakeups {
  import opened Wrappers
  import opened Kube
  import opened Selection
  import opened Routing
  import opened OptedIn
  import opened Reconciling
  import opened Runs
  import opened SteadyState
  import opened Watches
  import opened Interleaving

  // ---------- Wanted bodies ----------

  /** What a reconcile would now write, however the pods are listed. */
  ghost predicate IsWanted(store: Store, svc: Service, body: SliceBody) {
    forall listing, now :: IsListing(listing, store, svc) ==> WantedBody(store, svc, listing, now) == body
  }

  /** The pods of an earlier List answer are, to the director's eyes, the pods of now. */
  ghost predicate Current(store: Store, svc: Service, pods: seq<Pod>) {
    exists listing :: IsListing(listing, store, svc) && AllAlike(pods, listing)
  }

  ghost predicate SameSlice(svc: Service, before: Store, after: Store) {
    && (LeaderKey(svc) in before.slices <==> LeaderKey(svc) in after.slices)
    && (LeaderKey(svc) in before.slices ==> after.slices[LeaderKey(svc)] == before.slices[LeaderKey(svc)])
  }

  lemma WantedStays(w: World, store: Store, after: Store, svc: Service, body: SliceBody)
    requires StoreOf(w, store) && StoreOf(w, after) && MinReadyDuration(svc) <= 0
    requires SameSlice(svc, store, after) && MatchingAlike(svc, store.pods, after.pods)
    requires IsWanted(store, svc, body)
    ensures IsWanted(after, svc, body)
  {
    hide LeaderServiceName, MinReadyDuration, WantedBody, SlicesOf, ServicesOf;
    forall listing, now | IsListing(listing, after, svc) ensures WantedBody(after, svc, listing, now) == body {
      AlikeIsSymmetric(svc, store.pods, after.pods);
      var one := Relisted(after, store, svc, listing);
      AlikePodsKeepTheBody(w, store, after, svc, one, listing, now, now);
    }
  }

  lemma AlikeIsSymmetric(svc: Service, before: map<NamespacedName, Pod>, after: map<NamespacedName, Pod>)
    requires MatchingAlike(svc, before, after)
    ensures MatchingAlike(svc, after, before)
  {
    hide IsPodReady, Selects;
    forall k ensures k in after && Matches(svc, after[k]) && k in before ==> Alike(after[k], before[k]) {
      assert k in before && Matches(svc, before[k]) <==> k in after && Matches(svc, after[k]);
    }
  }

  lemma CurrentStays(w: World, store: Store, after: Store, svc: Service, pods: seq<Pod>)
    requires PodsOf(w, store.pods) && PodsOf(w, after.pods) && MatchingAlike(svc, store.pods, after.pods)
    requires Current(store, svc, pods)
    ensures Current(after, svc, pods)
  {
    hide Matches, IsPodReady;
    var listing :| IsListing(listing, store, svc) && AllAlike(pods, listing);
    var relisted := Relisted(store, after, svc, listing);
    forall i | 0 <= i < |pods| ensures Alike(pods[i], relisted[i]) {
      assert Alike(pods[i], listing[i]) && Alike(listing[i], relisted[i]);
    }
  }

  /** The choice that the store calls for, among the pods of a List answer that is still current, gives the wanted body. */
  lemma ChoiceIsWanted(w: World, store: Store, svc: Service, pods: seq<Pod>, now: Time)
    requires StoreOf(w, store) && MinReadyDuration(svc) <= 0 && Current(store, svc, pods)
    ensures IsWanted(store, svc, BodyFor(svc, Choice(store, svc, pods, now)))
  {
    hide LeaderServiceName, MinReadyDuration, Choice, Matches, IsPodReady, LeaderBody, Routed, RoutedPorts, ServicesOf;
    var current :| IsListing(current, store, svc) && AllAlike(pods, current);
    forall listing, later | IsListing(listing, store, svc)
      ensures WantedBody(store, svc, listing, later) == BodyFor(svc, Choice(store, svc, pods, now)) {
      ChoiceAmongAlike(store, svc, pods, current, now, later);
      BodyOfAlike(svc, Choice(store, svc, pods, now), Choice(store, svc, current, later));
      ChoiceIgnoresOrderAndClock(w, store, store, svc, current, listing, later, later);
    }
  }

  /** The slice is not this body, so a worker that wants it will change the slice, which announces itself. */
  ghost predicate WillAnnounce(store: Store, svc: Service, body: SliceBody) {
    !(LeaderKey(svc) in store.slices && store.slices[LeaderKey(svc)].body == body)
  }

  /** The selection keeps a pod against which failover is called, though another one is the eldest: failed reads or a stale cache entry hide it. */
  ghost predicate MissesFailover(d: Director, svc: Service, a: Answers) {
    var held := HeldBySlice(d.store, svc, a.listing);
    held.Some? && held != Eldest(a.listing, MinReadyDuration(svc), a.now) && FailoverCalled(d.store, svc) && !Bypasses(d, svc, a)
  }

  /** Any other selection gives the body that is wanted, or at least not the one the slice has. */
  lemma ChosenIsWantedOrAnnounced(w: World, d: Director, svc: Service, a: Answers)
    requires StoreOf(w, d.store) && MinReadyDuration(svc) <= 0 && Current(d.store, svc, a.listing)
    requires !MissesFailover(d, svc, a)
    ensures var body := BodyFor(svc, Runs.Chosen(d, svc, a).0);
            IsWanted(d.store, svc, body) || WillAnnounce(d.store, svc, body)
  {
    hide LeaderServiceName, MinReadyDuration, IsPodReady, ServicesOf, PodsOf, IsWanted, WillAnnounce, Current, Reconciling.Choose, Choice, BodyFor,
      StickyLeader, Eldest, Bypasses, FailoverCalled, SingleEndpoint;
    SelectionIsRightIff(d, svc, a);
    ChoiceIsWanted(w, d.store, svc, a.listing, a.now);
    var held := HeldBySlice(d.store, svc, a.listing);
    if held.Some? {
      SlicesAreSingle(w, d.store, LeaderKey(svc));
      StickyLeaderIsTarget(d.store.slices[LeaderKey(svc)], a.listing);
      if Runs.Chosen(d, svc, a).0 != held { OtherBodyThanTheSlice(w, d.store, svc, a.listing, Runs.Chosen(d, svc, a).0, held.value); }
    }
  }

  lemma SlicesAreSingle(w: World, store: Store, key: NamespacedName)
    requires StoreOf(w, store) && key in store.slices
    ensures |store.slices[key].body.endpoints| == 1
  {
  }

  lemma OtherBodyThanTheSlice(w: World, store: Store, svc: Service, pods: seq<Pod>, chosen: Option<Pod>, held: Pod)
    requires StoreOf(w, store) && Current(store, svc, pods) && LeaderKey(svc) in store.slices
    requires Target(store.slices[LeaderKey(svc)]).Some? && Target(store.slices[LeaderKey(svc)]).value.uid == held.uid
    requires held in pods && chosen != Some(held) && (chosen.Some? ==> chosen.value in pods)
    ensures WillAnnounce(store, svc, BodyFor(svc, chosen))
  {
    hide LeaderServiceName, ServicesOf, SingleEndpoint, IsListing, AllAlike;
    if chosen.Some? && chosen.value.uid == held.uid { CurrentPodsAreDistinct(w, store, svc, pods, chosen.value, held); }
    BodyForTargets(svc, chosen);
  }

  lemma BodyForTargets(svc: Service, leader: Option<Pod>)
    ensures var e := BodyFor(svc, leader).endpoints;
            |e| == 1 && (e[0].targetRef.Some? ==> leader.Some? && e[0].targetRef.value.uid == leader.value.uid)
  {
    ResolvedPortsOfRouted(svc, leader);
  }

  lemma CurrentPodsAreDistinct(w: World, store: Store, svc: Service, pods: seq<Pod>, p: Pod, q: Pod)
    requires PodsOf(w, store.pods) && Current(store, svc, pods) && p in pods && q in pods && p.uid == q.uid
    ensures p == q
  {
    hide IsListing, Distinct, PodsOf, Alike;
    var listing: seq<Pod> :| IsListing(listing, store, svc) && AllAlike(pods, listing);
    ListingIsDistinct(w, listing, store, svc);
    var i :| 0 <= i < |pods| && pods[i] == p;
    var j :| 0 <= j < |pods| && pods[j] == q;
    AlikeHasUid(pods[i], listing[i]);
    AlikeHasUid(pods[j], listing[j]);
    DistinctAt(listing, i, j);
  }

  lemma AlikeHasUid(p: Pod, q: Pod)
    requires Alike(p, q)
    ensures p.uid == q.uid
  {
    hide IsPodReady;
  }

  lemma DistinctAt(pods: seq<Pod>, i: nat, j: nat)
    requires Distinct(pods) && i < |pods| && j < |pods| && pods[i].uid == pods[j].uid
    ensures i == j
  {
    assert pods[i] in pods && pods[j] in pods;
    assert pods[i].key == pods[j].key;
  }

  lemma ChoiceAmongAlike(store: Store, svc: Service, one: seq<Pod>, other: seq<Pod>, now: Time, later: Time)
    requires AllAlike(one, other) && MinReadyDuration(svc) <= 0
    ensures AlikeOptions(Choice(store, svc, one, now), Choice(store, svc, other, later))
  {
    hide LeaderServiceName, MinReadyDuration, Eldest, StickyLeader, IsPodReady;
    EldestOfAlike(one, other, MinReadyDuration(svc), now, later);
    if LeaderKey(svc) in store.slices {
      StickyLeaderOfAlike(store.slices[LeaderKey(svc)].body.endpoints, one, other);
    }
  }

  // ---------- The invariant ----------

  /** The event will queue k when it is delivered, provided the opted-in cache knows k. */
  ghost predicate Calls(s: System, e: Event, k: NamespacedName) {
    match e
    case ServiceEvent(key) => key == k
    case SliceEvent(slice) => k in SliceRequests(slice)
    case PodEvent(pod) => k in s.store.services && Matches(s.store.services[k], pod)
  }

  ghost predicate Woken(s: System, k: NamespacedName) {
    k in s.queue || exists e :: e in s.events && Calls(s, e, k)
  }

  /** The Service is announced or queued, so a reconcile will still note it in the cache. */
  ghost predicate Announced(s: System, k: NamespacedName) {
    k in s.queue || ServiceEvent(k) in s.events
  }

  ghost predicate Cached(s: System, k: NamespacedName, svc: Service) {
    Lookup(Entries(s.optedIn, k.namespace), k.name) == Some(svc.selector)
  }

  ghost predicate BeingNoted(s: System, k: NamespacedName, svc: Service) {
    k in s.workers && s.workers[k] == Fetched(svc)
  }

  /** The slice is what a reconcile would now write. */
  ghost predicate UpToDate(s: System, svc: Service) {
    LeaderKey(svc) in s.store.slices && IsWanted(s.store, svc, s.store.slices[LeaderKey(svc)].body)
  }

  /** Writing this body is right, or at least changes the slice, so that the source is woken again. */
  ghost predicate Righting(store: Store, svc: Service, body: SliceBody) {
    IsWanted(store, svc, body) || WillAnnounce(store, svc, body)
  }

  /** The worker of a source will bring its slice up to date or wake the source again, if nothing changes any more. */
  ghost predicate OnCourse(s: System, svc: Service, phase: Phase) {
    match phase
    case Fetched(v) => v == svc
    case Cleaning => false
    case Noted(v) => v == svc
    case Listed(v, pods) => v == svc && Current(s.store, svc, pods)
    case Chosen(v, _, leader) => v == svc && Righting(s.store, svc, BodyFor(v, leader))
    case Published(v, _, leader) => v == svc && Righting(s.store, svc, BodyFor(v, leader))
    case SliceRead(v, _, leader, _) => v == svc && Righting(s.store, svc, BodyFor(v, leader))
  }

  ghost predicate Good(s: System, k: NamespacedName, svc: Service) {
    if k in s.workers then OnCourse(s, svc, s.workers[k]) else UpToDate(s, svc)
  }

  /** The opted-in cache knows the source, or will before its pods are listed again. */
  ghost predicate Noting(s: System, k: NamespacedName, svc: Service) {
    && (Cached(s, k, svc) || Announced(s, k) || BeingNoted(s, k, svc))
    && (k in s.workers && s.workers[k].Fetched? ==> s.workers[k].svc == svc || Announced(s, k))
  }

  /** What holds of every source at every moment. */
  ghost predicate Attended(s: System, k: NamespacedName, svc: Service) {
    (Woken(s, k) || Good(s, k, svc)) && Noting(s, k, svc)
  }

  ghost predicate AllAttended(s: System) {
    forall k :: k in s.store.services && Source(s.store.services[k]) ==> Attended(s, k, s.store.services[k])
  }

  /** The well-formedness the proof rests on: names, pod identities, one list entry per Service, labels, no damping. */
  ghost predicate Sound(w: World, s: System) {
    && NamesHeld(w, s) && PodsOf(w, s.store.pods) && CacheWellFormed(s.optedIn)
    && SlicesSound(w, s.store.slices) && AllUndamped(s.store.services) && WorkersSound(w, s.workers)
  }

  lemma SoundStore(w: World, s: System)
    requires Sound(w, s)
    ensures StoreOf(w, s.store)
  {
  }

  lemma SoundSource(w: World, s: System, k: NamespacedName)
    requires Sound(w, s) && k in s.store.services && Source(s.store.services[k])
    ensures var svc := s.store.services[k];
            svc.key == k && MinReadyDuration(svc) <= 0 && LeaderKey(svc) == w.leader(k)
            && (LeaderKey(svc) in s.store.slices ==> k in SliceRequests(s.store.slices[LeaderKey(svc)]))
  {
  }

  ghost predicate SlicesSound(w: World, slices: map<NamespacedName, EndpointSlice>) {
    && SlicesOf(w, slices)
    && (forall k :: w.leader(k) in slices ==> k in SliceRequests(slices[w.leader(k)]))
  }

  ghost predicate AllUndamped(services: map<NamespacedName, Service>) {
    forall k :: k in services ==> Undamped(services[k])
  }

  ghost predicate WorkersSound(w: World, workers: map<NamespacedName, Phase>) {
    forall k :: k in workers ==> WorkerSound(w, workers[k])
  }

  predicate Undamped(svc: Service) {
    Source(svc) ==> MinReadyDuration(svc) <= 0
  }

  ghost predicate WorkerSound(w: World, phase: Phase) {
    && (!phase.Cleaning? ==> Undamped(phase.svc))
    && (!phase.Cleaning? && !phase.Fetched? && !phase.Noted? ==> forall p :: p in phase.pods ==> p.uid != "" && w.home(p.uid) == p.key)
    && (phase.Chosen? || phase.Published? || phase.SliceRead? ==> phase.leader.Some? ==> phase.leader.value in phase.pods)
  }

  /** The hypotheses on one step: no selection misses a failover. */
  ghost predicate Reliable(w: World, s: System, act: Action)
    requires Possible(s, act)
  {
    && Orderly(w, s, act)
    && (act.ChooseLeader? ==> !MissesFailover(DirectorOf(s), s.workers[act.request].svc, act.answers.(listing := s.workers[act.request].pods)))
  }

  /** Users and API server behave, and a refresh is complete. */
  ghost predicate Orderly(w: World, s: System, act: Action)
    requires Possible(s, act)
  {
    && Allowed(w, s, act)
    && match act
       case ChangeService(_, svc) => svc.Some? ==> Undamped(svc.value)
       case ChangePod(key, pod) => pod.Some? && key in s.store.pods ==> SamePod(s.store.pods[key], pod.value)
       case RefreshCache(namespace, list) =>
         // the scan misses a source only if its change came after the scan began, so is still to be noted
         && WellFormed(list)
         && forall k :: k in s.store.services && k.namespace == namespace && Source(s.store.services[k]) ==>
              || Lookup(list, k.name) == Some(s.store.services[k].selector)
              || Announced(s, k) || BeingNoted(s, k, s.store.services[k])
       case Crash(announced) => forall k :: k in s.store.services ==> ServiceEvent(k) in announced
       case _ => true
  }

  /** The cache lock is held from the scan to the replacement, so a scan that finds every source meets the hypothesis. */
  lemma RefreshUnderLimitIsReliable(w: World, s: System, namespace: string, list: seq<CachedService>, limit: nat)
    requires IsRefresh(list, s.store.services, namespace, limit) && |SourceKeys(s.store.services, namespace)| <= limit
    ensures Reliable(w, s, RefreshCache(namespace, list))
  {
    hide LeaderServiceName, Source;
    RefreshCoversAllIffUnderLimit(list, s.store.services, namespace, limit);
  }

  // ---------- Steps that do not concern a source ----------

  /** Nothing about k differs between s and t, except that more may be announced. */
  ghost predicate Undisturbed(w: World, s: System, t: System, k: NamespacedName) {
    && k in s.store.services && k in t.store.services && t.store.services[k] == s.store.services[k]
    && SameSlice(s.store.services[k], s.store, t.store)
    && MatchingAlike(s.store.services[k], s.store.pods, t.store.pods)
    && SameDesk(s, t, k)
  }

  /** k's worker, its place in the queue and its cache entry are as before, and no event was lost. */
  ghost predicate SameDesk(s: System, t: System, k: NamespacedName) {
    && Get(t.workers, k) == Get(s.workers, k)
    && (k in s.queue ==> k in t.queue)
    && s.events <= t.events
    && Lookup(Entries(t.optedIn, k.namespace), k.name) == Lookup(Entries(s.optedIn, k.namespace), k.name)
  }

  lemma NotingStays(s: System, t: System, k: NamespacedName, svc: Service)
    requires Noting(s, k, svc) && SameDesk(s, t, k)
    ensures Noting(t, k, svc)
  {
  }

  lemma WokenStays(s: System, t: System, k: NamespacedName)
    requires Woken(s, k) && (k in s.queue ==> k in t.queue) && s.events <= t.events
    requires Get(t.store.services, k) == Get(s.store.services, k)
    ensures Woken(t, k)
  {
    hide Matches, SliceRequests;
    if k !in s.queue {
      var e :| e in s.events && Calls(s, e, k);
      assert e in t.events && Calls(t, e, k);
    }
  }

  lemma UndisturbedStaysAttended(w: World, s: System, t: System, k: NamespacedName)
    requires Sound(w, s) && Sound(w, t) && Undisturbed(w, s, t, k) && Source(s.store.services[k]) && Attended(s, k, s.store.services[k])
    ensures Attended(t, k, s.store.services[k])
  {
    hide LeaderServiceName, Source, Sound, Woken, Good, Noting, MatchingAlike, SameSlice;
    NotingStays(s, t, k, s.store.services[k]);
    if Woken(s, k) { WokenStays(s, t, k); } else { GoodStays(w, s, t, k); }
  }

  lemma RightingStays(w: World, store: Store, after: Store, svc: Service, body: SliceBody)
    requires StoreOf(w, store) && StoreOf(w, after) && MinReadyDuration(svc) <= 0
    requires SameSlice(svc, store, after) && MatchingAlike(svc, store.pods, after.pods)
    requires Righting(store, svc, body)
    ensures Righting(after, svc, body)
  {
    hide LeaderServiceName, MinReadyDuration, IsWanted, MatchingAlike, StoreOf;
    if IsWanted(store, svc, body) { WantedStays(w, store, after, svc, body); }
  }

  lemma GoodStays(w: World, s: System, t: System, k: NamespacedName)
    requires Sound(w, s) && Sound(w, t) && Undisturbed(w, s, t, k) && Source(s.store.services[k]) && Good(s, k, s.store.services[k])
    ensures Good(t, k, s.store.services[k])
  {
    hide LeaderServiceName, MinReadyDuration, Righting, IsWanted, Current, Matches, MatchingAlike, SlicesOf, ServicesOf, PodsOf,
      Sound, BodyFor, SliceRequests;
    SoundStore(w, s);
    SoundStore(w, t);
    SoundSource(w, s, k);
    var svc := s.store.services[k];
    if k in s.workers {
      match s.workers[k]
      case Listed(_, pods) => CurrentStays(w, s.store, t.store, svc, pods);
      case Chosen(_, _, leader) => RightingStays(w, s.store, t.store, svc, BodyFor(svc, leader));
      case Published(_, _, leader) => RightingStays(w, s.store, t.store, svc, BodyFor(svc, leader));
      case SliceRead(_, _, leader, _) => RightingStays(w, s.store, t.store, svc, BodyFor(svc, leader));
      case _ =>
    } else {
      WantedStays(w, s.store, t.store, svc, s.store.slices[LeaderKey(svc)].body);
    }
  }

  // ---------- Soundness is kept ----------

  lemma PatchKeepsSlicesSound(w: World, s: System, act: Action)
    requires Possible(s, act) && act.PatchSlice? && Sound(w, s) && LeaderNamesDistinct(w)
    ensures SlicesSound(w, Act(s, act).store.slices)
  {
    hide LeaderServiceName, Act, SendSlice, SliceLabels, SliceRequests, BodyFor, Source, MinReadyDuration, ServicesOf, PodsOf, SingleEndpoint;
    var k := act.request;
    var p := s.workers[k];
    WorkerLeader(w, s, k);
    PatchSteps(s, k, act.answers);
    assert WorkerOf(w, s, k, p) && WorkerSound(w, p);
    SendSliceBody(s.store, p.svc, p.original, BodyFor(p.svc, p.leader), act.answers);
    var slices := Act(s, act).store.slices;
    if LeaderKey(p.svc) in slices && slices[LeaderKey(p.svc)].body == BodyFor(p.svc, p.leader) {
      BodyForRefersToLeader(w, slices[LeaderKey(p.svc)], p.svc, p.leader);
    }
  }

  lemma BodyForRefersToLeader(w: World, slice: EndpointSlice, svc: Service, leader: Option<Pod>)
    requires slice.body == BodyFor(svc, leader)
    requires leader.Some? ==> leader.value.uid != "" && w.home(leader.value.uid) == leader.value.key
    ensures SingleEndpoint(w, slice)
    ensures Target(slice).Some? ==> leader.Some? && Target(slice).value.uid == leader.value.uid
  {
    ResolvedPortsOfRouted(svc, leader);
    BodyRefersToChosen(w, slice, svc, leader);
  }

  /** A worker's write of the slice it read: the wanted body under the labels that name the source. */
  lemma SendSliceBody(store: Store, svc: Service, original: Option<EndpointSlice>, wanted: SliceBody, a: Answers)
    requires original.Some? && LeaderKey(svc) in store.slices ==> store.slices[LeaderKey(svc)] == original.value
    requires forall k :: k in store.slices ==> store.slices[k].key == k
    ensures var o, key := SendSlice(store, svc, original, wanted, a), LeaderKey(svc);
            forall k :: k in o.store.slices ==>
              || (k in store.slices && o.store.slices[k] == store.slices[k])
              || (k == key && o.store.slices[k].body == wanted && o.store.slices[k].key == key
                  && (key in store.slices ==> SliceRequests(o.store.slices[k]) == SliceRequests(store.slices[k]))
                  && (key !in store.slices ==> svc.key in SliceRequests(o.store.slices[k])))
    ensures var o, key := SendSlice(store, svc, original, wanted, a), LeaderKey(svc);
            o.ok ==> key in o.store.slices && o.store.slices[key].body == wanted
                     && (o.writes == [] ==> o.store == store)
                     && (o.writes != [] ==> o.writes == [PutSlice(o.store.slices[key])])
  {
    hide LeaderServiceName, SliceLabels;
    NewSliceNamesItsSource(svc, SliceOwnerUid(store, LeaderKey(svc), a), wanted);
  }

  lemma PublishDrops(store: Store, svc: Service, leader: Option<Pod>, a: Answers)
    requires forall k :: k in store.slices ==> store.slices[k].key == k
    requires forall k :: k in store.services ==> store.services[k].key == k
    ensures var o := Publish(store, svc, leader, a);
            || o.store.slices == store.slices
            || (LeaderKey(svc) in store.slices && o.store.slices == store.slices - {LeaderKey(svc)}
                && o.writes != [] && o.writes[0] == DeleteSlice(store.slices[LeaderKey(svc)]))
  {
    hide LeaderServiceName, WriteLeaderService, Resolvable, Routed, RoutedPorts;
    var dropped := if Resolvable(svc.ports, leader) then Outcome(store, [], true) else DropSlice(store, LeaderKey(svc), a);
    LeaderServiceWrites(dropped.store, svc, Routed(svc, leader), RoutedPorts(svc, leader), a);
  }

  lemma FewerSlicesStaySound(w: World, slices: map<NamespacedName, EndpointSlice>, fewer: map<NamespacedName, EndpointSlice>)
    requires SlicesSound(w, slices) && forall k :: k in fewer ==> k in slices && fewer[k] == slices[k]
    ensures SlicesSound(w, fewer)
  {
    hide SliceRequests, SingleEndpoint;
  }

  lemma SlicesStaySound(w: World, s: System, act: Action)
    requires LeaderNamesDistinct(w) && Possible(s, act) && Sound(w, s)
    ensures SlicesSound(w, Act(s, act).store.slices)
  {
    hide LeaderServiceName, ChosenFrom, Publish, SendSlice, Cleanup, UpdateFor, EventsOf, PodEvents, Mapped, Enabled, RoutedPorts, Routed,
      SlicesSound, WorkerOf, WorkersSound, PodsOf, AllUndamped;
    if act.PatchSlice? {
      PatchKeepsSlicesSound(w, s, act);
    } else {
      if act.CleanUp? { CleanupWrites(s.store, act.request, act.answers); }
      if act.PublishService? { PublishDrops(s.store, s.workers[act.request].svc, s.workers[act.request].leader, act.answers); }
      FewerSlicesStaySound(w, s.store.slices, Act(s, act).store.slices);
    }
  }

  lemma ServicesStayUndamped(w: World, s: System, act: Action)
    requires Possible(s, act) && Orderly(w, s, act) && Sound(w, s)
    ensures AllUndamped(Act(s, act).store.services)
  {
    if MayWrite(act) {
      hide LeaderServiceName, Act, Source, MinReadyDuration, SlicesSound, WorkersSound, PodsOf, Orderly;
      forall k | k in Act(s, act).store.services ensures Undamped(Act(s, act).store.services[k]) {
        if Source(Act(s, act).store.services[k]) { SourceWasThere(w, s, act, k); }
      }
    } else {
      hide LeaderServiceName, ChosenFrom, UpdateFor, PodEvents, Mapped, Enabled, RoutedPorts, Routed, SlicesSound, WorkersSound, PodsOf, MinReadyDuration;
    }
  }

  lemma WorkersStaySound(w: World, s: System, act: Action)
    requires Possible(s, act) && Orderly(w, s, act) && Sound(w, s)
    ensures WorkersSound(w, Act(s, act).workers)
  {
    hide LeaderServiceName, ChosenFrom, Publish, SendSlice, Cleanup, UpdateFor, EventsOf, PodEvents, Mapped, RoutedPorts, Routed,
      SlicesSound, NamesHeld, Undamped, Enabled, BodyFor;
  }

  lemma SoundIsInductive(w: World, s: System, act: Action)
    requires LeaderNamesDistinct(w) && Possible(s, act) && Orderly(w, s, act) && Sound(w, s)
    ensures Sound(w, Act(s, act))
  {
    hide LeaderServiceName, Act, SlicesSound, WorkersSound, NamesHeld, AllUndamped, PodsOf, CacheWellFormed;
    NamesAreHeld(w, s, act);
    SlicesStaySound(w, s, act);
    ServicesStayUndamped(w, s, act);
    WorkersStaySound(w, s, act);
    PodsAndCacheStaySound(w, s, act);
  }

  lemma PodsAndCacheStaySound(w: World, s: System, act: Action)
    requires Possible(s, act) && Orderly(w, s, act) && Sound(w, s)
    ensures PodsOf(w, Act(s, act).store.pods) && CacheWellFormed(Act(s, act).optedIn)
  {
    hide LeaderServiceName, ChosenFrom, Publish, SendSlice, Cleanup, UpdateFor, EventsOf, PodEvents, Mapped, Enabled, RoutedPorts, Routed,
      SlicesSound, WorkersSound, NamesHeld, AllUndamped, BodyFor, SamePod;
    match act
    case Note(k) => UpdateForRefinesMap(s.optedIn, s.workers[k].svc, "", "");
    case CleanUp(_, _) => PodsStay(w, s, act);
    case PublishService(_, _) => PodsStay(w, s, act);
    case PatchSlice(_, _) => PodsStay(w, s, act);
    case _ =>
  }

  lemma PodsStay(w: World, s: System, act: Action)
    requires Possible(s, act) && Sound(w, s) && (act.PublishService? || act.PatchSlice? || act.CleanUp?)
    ensures Act(s, act).store.pods == s.store.pods && Act(s, act).optedIn == s.optedIn
  {
    hide LeaderServiceName, Publish, SendSlice, Cleanup, EventsOf;
    if act.CleanUp? { CleanupWrites(s.store, act.request, act.answers); } else { WorkerWrites(w, s, act); }
  }

  // ---------- The cluster changes ----------

  /** The step is over: k is a source now, and was attended before if it was one. */
  ghost predicate Steps(w: World, s: System, act: Action, k: NamespacedName) {
    && LeaderNamesDistinct(w) && Possible(s, act) && Reliable(w, s, act)
    && Sound(w, s) && Sound(w, Act(s, act)) && AllAttended(s)
    && k in Act(s, act).store.services && Source(Act(s, act).store.services[k])
  }

  lemma PodChangeAttended(w: World, s: System, act: Action, k: NamespacedName)
    requires Steps(w, s, act, k) && act.ChangePod?
    ensures Attended(Act(s, act), k, Act(s, act).store.services[k])
  {
    hide LeaderServiceName, Source, Sound, Good, Noting, UpdatePasses, IsPodReady, MatchingAlike, Selects;
    var t, svc := Act(s, act), s.store.services[k];
    var before := Get(s.store.pods, act.key);
    if exists e :: e in PodEvents(before, act.pod) && Matches(svc, e.pod) {
      var e :| e in PodEvents(before, act.pod) && Matches(svc, e.pod);
      assert e in t.events && Calls(t, e, k);
      NotingStays(s, t, k, svc);
    } else {
      UnheardPodChange(s, act, svc);
      UndisturbedStaysAttended(w, s, t, k);
    }
  }

  /** A pod change that announces nothing to a Service leaves its pods alike. */
  lemma UnheardPodChange(s: System, act: Action, svc: Service)
    requires act.ChangePod? && forall e :: e in PodEvents(Get(s.store.pods, act.key), act.pod) ==> !Matches(svc, e.pod)
    requires act.pod.Some? && act.key in s.store.pods ==> SamePod(s.store.pods[act.key], act.pod.value)
    ensures MatchingAlike(svc, s.store.pods, Act(s, act).store.pods)
  {
    hide Matches, Alike, SamePod, UpdatePasses;
    var before, after := Get(s.store.pods, act.key), act.pod;
    if before.Some? && after.Some? {
      SamePodMatchesAlike(svc, before.value, after.value);
      if UpdatePasses(before.value, after.value) { assert PodEvent(after.value) in PodEvents(before, after); }
    } else if before.Some? {
      assert PodEvent(before.value) in PodEvents(before, after);
    } else if after.Some? {
      assert PodEvent(after.value) in PodEvents(before, after);
    }
    forall p ensures Alike(p, p) { AlikeIsReflexive(p); }
  }

  lemma AlikeIsReflexive(p: Pod)
    ensures Alike(p, p)
  {
  }

  lemma SamePodMatchesAlike(svc: Service, before: Pod, after: Pod)
    requires SamePod(before, after)
    ensures Matches(svc, before) == Matches(svc, after)
    ensures !UpdatePasses(before, after) ==> Alike(before, after)
  {
    hide IsPodReady, Selects;
  }

  lemma ServiceChangeAttended(w: World, s: System, act: Action, k: NamespacedName)
    requires Steps(w, s, act, k) && act.ChangeService?
    ensures Attended(Act(s, act), k, Act(s, act).store.services[k])
  {
    hide LeaderServiceName, Source, Sound, Good, IsPodReady, Selects, SliceRequests;
    var t := Act(s, act);
    if act.key == k {
      assert ServiceEvent(k) in t.events && Calls(t, ServiceEvent(k), k);
    } else {
      UndisturbedStaysAttended(w, s, t, k);
    }
  }

  lemma CollectAttended(w: World, s: System, act: Action, k: NamespacedName)
    requires Steps(w, s, act, k) && act.Collect?
    ensures Attended(Act(s, act), k, Act(s, act).store.services[k])
  {
    hide LeaderServiceName, Source, Sound, Good, Noting, IsPodReady, Selects, SliceRequests;
    var t, svc := Act(s, act), s.store.services[k];
    SoundSource(w, s, k);
    if act.slice == LeaderKey(svc) {
      var e := SliceEvent(s.store.slices[act.slice]);
      assert e in t.events && Calls(t, e, k);
      NotingStays(s, t, k, svc);
    } else {
      UndisturbedStaysAttended(w, s, t, k);
    }
  }

  lemma CrashAttended(w: World, s: System, act: Action, k: NamespacedName)
    requires Steps(w, s, act, k) && act.Crash?
    ensures Attended(Act(s, act), k, Act(s, act).store.services[k])
  {
    hide LeaderServiceName, Source, Sound, Good;
    var t := Act(s, act);
    assert ServiceEvent(k) in t.events && Calls(t, ServiceEvent(k), k);
  }

  lemma ResyncAttended(w: World, s: System, act: Action, k: NamespacedName)
    requires Steps(w, s, act, k) && act.Resync?
    ensures Attended(Act(s, act), k, Act(s, act).store.services[k])
  {
    hide LeaderServiceName, Source, Sound, MatchingAlike, Attended;
    SamePodsAreAlike(s.store.services[k], s.store.pods);
    UndisturbedStaysAttended(w, s, Act(s, act), k);
  }

  // ---------- Events are delivered, and the cache refreshed ----------

  /** A pod event reaches every source that the cache knows and whose selector the pod matches. */
  lemma PodEventReaches(s: System, pod: Pod, k: NamespacedName, svc: Service)
    requires CacheWellFormed(s.optedIn) && Cached(s, k, svc) && svc.key == k && Matches(svc, pod)
    ensures k in Mapped(s.optedIn, PodEvent(pod))
  {
    RequestsFromList(Entries(s.optedIn, pod.key.namespace), pod.key.namespace, pod.labels);
  }

  lemma DeliveryAttended(w: World, s: System, act: Action, k: NamespacedName)
    requires Steps(w, s, act, k) && act.DeliverEvent?
    ensures Attended(Act(s, act), k, Act(s, act).store.services[k])
  {
    hide LeaderServiceName, Source, MinReadyDuration, NamesHeld, Mapped, Matches, SliceRequests, IsWanted, Current;
    var t, svc, e := Act(s, act), s.store.services[k], act.event;
    if k !in t.queue {
      SoundSource(w, s, k);
      MappedEvents(s, e, k);
      if ServiceEvent(k) in s.events { assert ServiceEvent(k) in t.events && Calls(t, ServiceEvent(k), k); }
      if Woken(s, k) && !Good(s, k, svc) {
        var f :| f in s.events && Calls(s, f, k);
        if f == e {
          if Cached(s, k, svc) { PodEventReaches(s, e.pod, k, svc); }
        } else {
          assert f in t.events && Calls(t, f, k);
        }
      }
    }
  }

  lemma MappedEvents(s: System, e: Event, k: NamespacedName)
    ensures e.ServiceEvent? ==> Mapped(s.optedIn, e) == {e.key}
    ensures e.SliceEvent? ==> Mapped(s.optedIn, e) == SliceRequests(e.slice)
  {
  }

  lemma RefreshAttended(w: World, s: System, act: Action, k: NamespacedName)
    requires Steps(w, s, act, k) && act.RefreshCache?
    ensures Attended(Act(s, act), k, Act(s, act).store.services[k])
  {
    hide LeaderServiceName, Source, Sound, Matches, SliceRequests, IsWanted, Current, BodyFor, WellFormed;
    var t, svc := Act(s, act), s.store.services[k];
    if Woken(s, k) { WokenStays(s, t, k); }
  }

  lemma SweepAttended(w: World, s: System, act: Action, k: NamespacedName)
    requires Steps(w, s, act, k) && act.SweepCache?
    ensures Attended(Act(s, act), k, Act(s, act).store.services[k])
  {
    hide LeaderServiceName, Source, Sound, MatchingAlike, Attended;
    SamePodsAreAlike(s.store.services[k], s.store.pods);
    UndisturbedStaysAttended(w, s, Act(s, act), k);
  }

  // ---------- Workers move on ----------

  predicate OfWorker(act: Action) {
    act.Start? || act.Note? || act.CleanUp? || act.ListPodsOf? || act.ChooseLeader?
    || act.PublishService? || act.ReadSlice? || act.PatchSlice? || act.GiveUp?
  }

  /** What a worker does for another request does not disturb k. */
  lemma OtherWorkerAttended(w: World, s: System, act: Action, k: NamespacedName)
    requires Steps(w, s, act, k) && OfWorker(act) && act.request != k
    ensures Attended(Act(s, act), k, Act(s, act).store.services[k])
  {
    hide LeaderServiceName, Sound, Attended, MatchingAlike, Act, Reliable;
    OtherWorkerUndisturbed(w, s, act, k);
    UndisturbedStaysAttended(w, s, Act(s, act), k);
  }

  predicate MayWrite(act: Action) {
    act.PublishService? || act.PatchSlice? || act.CleanUp?
  }

  /** A worker's writes make no source: one that is there after them was there before. */
  lemma SourceWasThere(w: World, s: System, act: Action, k: NamespacedName)
    requires Possible(s, act) && NamesHeld(w, s) && MayWrite(act)
    requires k in Act(s, act).store.services && Source(Act(s, act).store.services[k])
    ensures k in s.store.services && s.store.services[k] == Act(s, act).store.services[k]
  {
    hide LeaderServiceName, Publish, SendSlice, Cleanup, EventsOf, Enabled, BodyFor, WorkerOf;
    if act.CleanUp? { CleanupWrites(s.store, act.request, act.answers); } else { WorkerWrites(w, s, act); }
  }

  lemma WritersDesk(s: System, act: Action)
    requires Possible(s, act) && MayWrite(act)
    ensures SameForOthers(s, Act(s, act), act.request)
  {
    hide Act;
    match act
    case PublishService(k, a) => PublishDesk(s, k, a);
    case PatchSlice(k, a) => PatchDesk(s, k, a);
    case CleanUp(k, a) => CleanUpDesk(s, k, a);
  }

  /** Both caches are as before, nothing queued or announced was lost, and the workers of other requests did not move. */
  ghost predicate SameForOthers(s: System, t: System, request: NamespacedName) {
    && t.queue >= s.queue && t.events >= s.events && t.optedIn == s.optedIn && t.leaderCache == s.leaderCache
    && forall j :: j != request ==> Get(t.workers, j) == Get(s.workers, j)
  }

  lemma PublishDesk(s: System, k: NamespacedName, a: Answers)
    requires Possible(s, PublishService(k, a))
    ensures SameForOthers(s, Act(s, PublishService(k, a)), k)
  {
    hide LeaderServiceName, Publish, EventsOf;
  }

  lemma PatchDesk(s: System, k: NamespacedName, a: Answers)
    requires Possible(s, Action.PatchSlice(k, a))
    ensures SameForOthers(s, Act(s, Action.PatchSlice(k, a)), k)
  {
    hide LeaderServiceName, SendSlice, EventsOf, BodyFor;
  }

  lemma CleanUpDesk(s: System, k: NamespacedName, a: Answers)
    requires Possible(s, CleanUp(k, a))
    ensures SameForOthers(s, Act(s, CleanUp(k, a)), k)
  {
    hide LeaderServiceName, Cleanup, EventsOf;
  }

  lemma SamePodsAreAlike(svc: Service, pods: map<NamespacedName, Pod>)
    ensures MatchingAlike(svc, pods, pods)
  {
    hide Matches, Alike;
    forall p ensures Alike(p, p) { AlikeIsReflexive(p); }
  }

  lemma OtherWriterUndisturbed(w: World, s: System, act: Action, k: NamespacedName)
    requires Steps(w, s, act, k) && MayWrite(act) && act.request != k
    ensures Undisturbed(w, s, Act(s, act), k)
  {
    hide LeaderServiceName, Act, Source, MatchingAlike, AllAttended, WorkersSound, AllUndamped, WorkerOf, Reliable, SingleEndpoint, SliceRequests;
    SourceWasThere(w, s, act, k);
    WritersDesk(s, act);
    PodsStay(w, s, act);
    SamePodsAreAlike(s.store.services[k], s.store.pods);
    assert SameSlice(s.store.services[k], s.store, Act(s, act).store) by {
      SoundSource(w, s, k);
      if act.CleanUp? { CleanUpSlices(s, act); } else { WorkerWrites(w, s, act); }
    }
  }

  lemma CleanUpSlices(s: System, act: Action)
    requires Possible(s, act) && act.CleanUp? && forall k :: k in s.store.services ==> s.store.services[k].key == k
    ensures Act(s, act).store.slices == s.store.slices
  {
    hide LeaderServiceName, Cleanup, EventsOf;
    CleanupWrites(s.store, act.request, act.answers);
  }

  /** Only a patch puts a slice, so only a patch can make a pod the target. */
  lemma OnlyPatchesPutSlices(w: World, s: System, act: Action)
    requires Possible(s, act) && NamesHeld(w, s) && !act.PatchSlice?
    ensures var slices := Act(s, act).store.slices; forall key :: key in slices ==> key in s.store.slices && slices[key] == s.store.slices[key]
  {
    if act.PublishService? {
      hide Act, LeaderServiceName, Publish, ServicesOf, WorkerOf;
      PublishSteps(s, act.request, act.answers);
      NamesHeldFacts(w, s);
      PublishDrops(s.store, s.workers[act.request].svc, s.workers[act.request].leader, act.answers);
    } else if act.CleanUp? {
      hide Act, ServicesOf, WorkerOf;
      NamesHeldFacts(w, s);
      CleanUpSlices(s, act);
    } else {
      hide LeaderServiceName, ChosenFrom, UpdateFor, PodEvents, Mapped, Enabled, RoutedPorts, Routed, NamesHeld;
    }
  }

  lemma NamesHeldFacts(w: World, s: System)
    requires NamesHeld(w, s)
    ensures forall k :: k in s.store.services ==> s.store.services[k].key == k
    ensures forall k :: k in s.store.slices ==> s.store.slices[k].key == k
  {
  }

  lemma OtherWorkerUndisturbed(w: World, s: System, act: Action, k: NamespacedName)
    requires Steps(w, s, act, k) && OfWorker(act) && act.request != k
    ensures Undisturbed(w, s, Act(s, act), k)
  {
    if MayWrite(act) {
      OtherWriterUndisturbed(w, s, act, k);
    } else {
      OtherAdvanceUndisturbed(w, s, act, k);
    }
  }

  lemma OtherAdvanceUndisturbed(w: World, s: System, act: Action, k: NamespacedName)
    requires Steps(w, s, act, k) && OfWorker(act) && !MayWrite(act) && act.request != k
    ensures Undisturbed(w, s, Act(s, act), k)
  {
    hide LeaderServiceName, Act, Source, AllAttended, MatchingAlike, Reliable, Sound;
    AdvancersDesk(s, act, k);
    SamePodsAreAlike(s.store.services[k], s.store.pods);
    if act.Note? { NoteKeepsOthers(w, s, act, k); }
  }

  lemma AdvancersDesk(s: System, act: Action, k: NamespacedName)
    requires Possible(s, act) && OfWorker(act) && !MayWrite(act) && act.request != k
    ensures var t := Act(s, act);
            && t.store == s.store && t.events == s.events && (t.optedIn == s.optedIn || act.Note?) && (t.leaderCache == s.leaderCache || act.ChooseLeader?)
            && (k in s.queue ==> k in t.queue) && Get(t.workers, k) == Get(s.workers, k)
  {
    hide Act, Possible;
    match act
    case Start(j) => StartDesk(s, j, k);
    case Note(j) => NoteDesk(s, j, k);
    case ListPodsOf(j, listing) => ListDesk(s, j, listing, k);
    case ChooseLeader(j, a) => ChooseSteps(s, j, a);
    case ReadSlice(j, a) => ReadDesk(s, j, a, k);
    case GiveUp(j) => GiveUpDesk(s, j, k);
  }

  ghost predicate SameForOther(s: System, t: System, k: NamespacedName) {
    && t.store == s.store && t.events == s.events && t.leaderCache == s.leaderCache
    && (k in s.queue ==> k in t.queue) && Get(t.workers, k) == Get(s.workers, k)
  }

  lemma StartDesk(s: System, j: NamespacedName, k: NamespacedName)
    requires Possible(s, Start(j)) && j != k
    ensures SameForOther(s, Act(s, Start(j)), k) && Act(s, Start(j)).optedIn == s.optedIn
  {
  }

  lemma NoteDesk(s: System, j: NamespacedName, k: NamespacedName)
    requires Possible(s, Note(j)) && j != k
    ensures SameForOther(s, Act(s, Note(j)), k)
  {
    hide UpdateFor, Enabled, Act, ValidNames;
    NoteStep(s, j);
  }

  lemma ListDesk(s: System, j: NamespacedName, listing: seq<Pod>, k: NamespacedName)
    requires Possible(s, ListPodsOf(j, listing)) && j != k
    ensures SameForOther(s, Act(s, ListPodsOf(j, listing)), k) && Act(s, ListPodsOf(j, listing)).optedIn == s.optedIn
  {
  }

  lemma ReadDesk(s: System, j: NamespacedName, a: Answers, k: NamespacedName)
    requires Possible(s, ReadSlice(j, a)) && j != k
    ensures SameForOther(s, Act(s, ReadSlice(j, a)), k) && Act(s, ReadSlice(j, a)).optedIn == s.optedIn
  {
    hide LeaderServiceName, Routed, RoutedPorts;
  }

  lemma GiveUpDesk(s: System, j: NamespacedName, k: NamespacedName)
    requires Possible(s, GiveUp(j)) && j != k
    ensures SameForOther(s, Act(s, GiveUp(j)), k) && Act(s, GiveUp(j)).optedIn == s.optedIn
  {
  }

  lemma NoteKeepsOthers(w: World, s: System, act: Action, k: NamespacedName)
    requires Possible(s, act) && act.Note? && act.request != k && Sound(w, s)
    ensures Lookup(Entries(Act(s, act).optedIn, k.namespace), k.name) == Lookup(Entries(s.optedIn, k.namespace), k.name)
  {
    hide LeaderServiceName, UpdateFor, Enabled, ServicesOf;
    var j := act.request;
    assert WorkerOf(w, s, j, s.workers[j]);
    UpdateForRefinesMap(s.optedIn, s.workers[j].svc, k.namespace, k.name);
  }

  lemma StartAttended(w: World, s: System, act: Action, k: NamespacedName)
    requires Steps(w, s, act, k) && act.Start? && act.request == k
    ensures Attended(Act(s, act), k, Act(s, act).store.services[k])
  {
    hide LeaderServiceName, Source, Sound, Woken, Cached, AllAttended;
  }

  lemma NoteAttended(w: World, s: System, act: Action, k: NamespacedName)
    requires Steps(w, s, act, k) && act.Note? && act.request == k
    ensures Attended(Act(s, act), k, Act(s, act).store.services[k])
  {
    hide LeaderServiceName, Act, UpdateFor, Matches, SliceRequests, IsWanted, MinReadyDuration, SlicesSound, PodsOf, AllUndamped, WorkersSound,
      WorkerOf, ServicesOf, Enabled, Reliable;
    NoteSteps(s, k);
    var t, svc, v := Act(s, act), s.store.services[k], s.workers[k].svc;
    if v == svc {
      SoundSource(w, s, k);
      UpdateForRefinesMap(s.optedIn, v, k.namespace, k.name);
    } else if k !in s.queue {
      assert ServiceEvent(k) in t.events && Calls(t, ServiceEvent(k), k);
    }
  }

  lemma CleanUpAttended(w: World, s: System, act: Action, k: NamespacedName)
    requires Steps(w, s, act, k) && act.CleanUp? && act.request == k
    ensures Attended(Act(s, act), k, Act(s, act).store.services[k])
  {
    hide LeaderServiceName, Cleanup, EventsOf, Source, SliceRequests, Matches, IsWanted, WorkerOf;
    var t := Act(s, act);
    CleanupWrites(s.store, k, act.answers);
    WokenStays(s, t, k);
  }

  lemma ListAttended(w: World, s: System, act: Action, k: NamespacedName)
    requires Steps(w, s, act, k) && act.ListPodsOf? && act.request == k
    ensures Attended(Act(s, act), k, Act(s, act).store.services[k])
  {
    hide LeaderServiceName, Source, Sound, SliceRequests, Matches, Alike, IsWanted, IsListing;
    var t := Act(s, act);
    forall p ensures Alike(p, p) { AlikeIsReflexive(p); }
    if Woken(s, k) { WokenStays(s, t, k); } else { assert AllAlike(act.listing, act.listing); }
  }

  lemma ChooseAttended(w: World, s: System, act: Action, k: NamespacedName)
    requires Steps(w, s, act, k) && act.ChooseLeader? && act.request == k
    ensures Attended(Act(s, act), k, Act(s, act).store.services[k])
  {
    hide LeaderServiceName, Source, Sound, Reconciling.Choose, SliceRequests, Matches, IsWanted, Current, MinReadyDuration, BodyFor,
      MissesFailover;
    var t := Act(s, act);
    if Woken(s, k) {
      WokenStays(s, t, k);
    } else {
      SoundStore(w, s);
      SoundSource(w, s, k);
      ChosenIsWantedOrAnnounced(w, DirectorOf(s), s.workers[k].svc, act.answers.(listing := s.workers[k].pods));
    }
  }

  lemma ReadAttended(w: World, s: System, act: Action, k: NamespacedName)
    requires Steps(w, s, act, k) && act.ReadSlice? && act.request == k
    ensures Attended(Act(s, act), k, Act(s, act).store.services[k])
  {
    hide LeaderServiceName, Source, Sound, SliceRequests, Matches, IsWanted, BodyFor, RoutedPorts, Routed;
    if Woken(s, k) { WokenStays(s, Act(s, act), k); }
  }

  lemma GiveUpAttended(w: World, s: System, act: Action, k: NamespacedName)
    requires Steps(w, s, act, k) && act.GiveUp? && act.request == k
    ensures Attended(Act(s, act), k, Act(s, act).store.services[k])
  {
    hide LeaderServiceName, Source, Sound;
  }

  lemma WrittenEvents(ws: seq<Write>)
    requires ws != []
    ensures EventOf(ws[0]) in EventsOf(ws)
  {
  }

  lemma WriterIsNotFetched(s: System, act: Action)
    requires Possible(s, act) && MayWrite(act)
    ensures !s.workers[act.request].Fetched?
    ensures act.request in Act(s, act).workers ==> !Act(s, act).workers[act.request].Fetched?
  {
    match act
    case PublishService(k, a) => hide Act; PublishSteps(s, k, a);
    case PatchSlice(k, a) => hide Act; PatchSteps(s, k, a);
    case CleanUp(k, a) => CleanUpEnds(s, k, a);
  }

  lemma CleanUpEnds(s: System, k: NamespacedName, a: Answers)
    requires Possible(s, CleanUp(k, a))
    ensures k !in Act(s, CleanUp(k, a)).workers
  {
    hide Cleanup, EventsOf;
  }

  lemma WriterNoting(w: World, s: System, act: Action, k: NamespacedName)
    requires Steps(w, s, act, k) && MayWrite(act) && act.request == k
    ensures k in s.store.services && Noting(Act(s, act), k, s.store.services[k])
  {
    hide LeaderServiceName, Act, Possible, Source, Sound, Woken, Good, Reliable;
    SoundNames(w, s);
    SourceWasThere(w, s, act, k);
    WritersDesk(s, act);
    WriterIsNotFetched(s, act);
  }

  lemma SoundNames(w: World, s: System)
    requires Sound(w, s)
    ensures NamesHeld(w, s)
    ensures forall k :: k in s.store.slices ==> s.store.slices[k].key == k
    ensures forall k :: k in s.store.services ==> s.store.services[k].key == k
  {
  }

  lemma PublishAttended(w: World, s: System, act: Action, k: NamespacedName)
    requires Steps(w, s, act, k) && act.PublishService? && act.request == k
    ensures Attended(Act(s, act), k, Act(s, act).store.services[k])
  {
    hide LeaderServiceName, Act, Source, Sound, Noting, Woken, Good, Reliable;
    SoundNames(w, s);
    SourceWasThere(w, s, act, k);
    WriterNoting(w, s, act, k);
    if Woken(s, k) { WritersDesk(s, act); WokenStays(s, Act(s, act), k); } else { PublishGood(w, s, act, k); }
  }

  lemma PublishGood(w: World, s: System, act: Action, k: NamespacedName)
    requires Steps(w, s, act, k) && act.PublishService? && act.request == k
    requires k in s.store.services && s.store.services[k] == Act(s, act).store.services[k] && Good(s, k, s.store.services[k])
    ensures Woken(Act(s, act), k) || Good(Act(s, act), k, s.store.services[k])
  {
    hide LeaderServiceName, Act, Publish, Source, Sound, SliceRequests, Matches, MatchingAlike, Righting, BodyFor, MinReadyDuration, EventsOf,
      Reliable, AllAttended;
    var t, svc, p := Act(s, act), s.store.services[k], s.workers[k];
    SoundNames(w, s);
    SoundSource(w, s, k);
    PublishSteps(s, k, act.answers);
    PublishDrops(s.store, p.svc, p.leader, act.answers);
    var o := Publish(s.store, p.svc, p.leader, act.answers);
    if t.store.slices != s.store.slices {
      WrittenEvents(o.writes);
      var e := SliceEvent(s.store.slices[LeaderKey(svc)]);
      assert e in t.events && Calls(t, e, k);
    } else if o.ok {
      PodsStay(w, s, act);
      SamePodsAreAlike(svc, s.store.pods);
      SoundStore(w, s);
      SoundStore(w, t);
      RightingStays(w, s.store, t.store, svc, BodyFor(svc, p.leader));
    }
  }

  lemma PatchAttended(w: World, s: System, act: Action, k: NamespacedName)
    requires Steps(w, s, act, k) && act.PatchSlice? && act.request == k
    ensures Attended(Act(s, act), k, Act(s, act).store.services[k])
  {
    hide LeaderServiceName, Act, Source, Sound, Noting, Woken, Good, Reliable;
    SoundNames(w, s);
    SourceWasThere(w, s, act, k);
    WriterNoting(w, s, act, k);
    if Woken(s, k) { WritersDesk(s, act); WokenStays(s, Act(s, act), k); } else { PatchGood(w, s, act, k); }
  }

  lemma PatchGood(w: World, s: System, act: Action, k: NamespacedName)
    requires Steps(w, s, act, k) && act.PatchSlice? && act.request == k
    requires k in s.store.services && s.store.services[k] == Act(s, act).store.services[k] && Good(s, k, s.store.services[k])
    ensures Woken(Act(s, act), k) || Good(Act(s, act), k, s.store.services[k])
  {
    hide LeaderServiceName, Act, SendSlice, Source, Sound, SliceRequests, Matches, IsWanted, BodyFor, MinReadyDuration, EventsOf,
      Reliable, AllAttended;
    var t, svc, p := Act(s, act), s.store.services[k], s.workers[k];
    SoundNames(w, s);
    SoundSource(w, t, k);
    assert p.original.Some? && LeaderKey(svc) in s.store.slices ==> s.store.slices[LeaderKey(svc)] == p.original.value by {
      assert WorkerOf(w, s, k, p);
    }
    PatchSteps(s, k, act.answers);
    SendSliceBody(s.store, p.svc, p.original, BodyFor(p.svc, p.leader), act.answers);
    var o := SendSlice(s.store, p.svc, p.original, BodyFor(p.svc, p.leader), act.answers);
    if o.ok && o.writes != [] {
      WrittenEvents(o.writes);
      var e := SliceEvent(t.store.slices[LeaderKey(svc)]);
      assert e in t.events && Calls(t, e, k);
    }
  }

  // ---------- Whole runs ----------

  lemma WorkerStepAttended(w: World, s: System, act: Action, k: NamespacedName)
    requires Steps(w, s, act, k) && OfWorker(act)
    ensures Attended(Act(s, act), k, Act(s, act).store.services[k])
  {
    hide LeaderServiceName, Steps, Attended;
    if act.request != k {
      OtherWorkerAttended(w, s, act, k);
    } else {
      match act
      case Start(_) => StartAttended(w, s, act, k);
      case Note(_) => NoteAttended(w, s, act, k);
      case CleanUp(_, _) => CleanUpAttended(w, s, act, k);
      case ListPodsOf(_, _) => ListAttended(w, s, act, k);
      case ChooseLeader(_, _) => ChooseAttended(w, s, act, k);
      case PublishService(_, _) => PublishAttended(w, s, act, k);
      case ReadSlice(_, _) => ReadAttended(w, s, act, k);
      case PatchSlice(_, _) => PatchAttended(w, s, act, k);
      case GiveUp(_) => GiveUpAttended(w, s, act, k);
    }
  }

  lemma ReliableIsOrderly(w: World, s: System, act: Action)
    requires Possible(s, act) && Reliable(w, s, act)
    ensures Orderly(w, s, act)
  {
    hide Orderly;
  }

  /** Every step of the system keeps every source attended. */
  lemma AttentionIsInductive(w: World, s: System, act: Action)
    requires LeaderNamesDistinct(w) && Possible(s, act) && Reliable(w, s, act)
    requires Sound(w, s) && AllAttended(s)
    ensures Sound(w, Act(s, act)) && AllAttended(Act(s, act))
  {
    hide LeaderServiceName, Act, Attended, Sound, Reliable, Source;
    ReliableIsOrderly(w, s, act);
    SoundIsInductive(w, s, act);
    forall k | k in Act(s, act).store.services && Source(Act(s, act).store.services[k])
      ensures Attended(Act(s, act), k, Act(s, act).store.services[k]) {
      assert Steps(w, s, act, k);
      match act
      case ChangePod(_, _) => PodChangeAttended(w, s, act, k);
      case ChangeService(_, _) => ServiceChangeAttended(w, s, act, k);
      case Collect(_) => CollectAttended(w, s, act, k);
      case DeliverEvent(_) => DeliveryAttended(w, s, act, k);
      case RefreshCache(_, _) => RefreshAttended(w, s, act, k);
      case SweepCache(_) => SweepAttended(w, s, act, k);
      case Resync(_) => ResyncAttended(w, s, act, k);
      case Crash(_) => CrashAttended(w, s, act, k);
      case _ => WorkerStepAttended(w, s, act, k);
    }
  }

  ghost predicate ReliableRun(w: World, s: System, acts: seq<Action>)
    decreases |acts|
  {
    acts != [] ==> Possible(s, acts[0]) && Reliable(w, s, acts[0]) && ReliableRun(w, Act(s, acts[0]), acts[1..])
  }

  ghost function Reached(w: World, s: System, acts: seq<Action>): System
    requires ReliableRun(w, s, acts)
    decreases |acts|
  {
    if acts == [] then s else Reached(w, Act(s, acts[0]), acts[1..])
  }

  /** A director that has just started: nothing cached, queued or in progress, every Service announced by the first list of the watch. */
  ghost predicate JustStarted(s: System) {
    && (s.leaderCache.None? || s.leaderCache == Some(map[])) && s.optedIn == map[] && s.queue == {} && s.workers == map[]
    && forall k :: k in s.store.services ==> ServiceEvent(k) in s.events
  }

  /**
   No lost wakeups. From a start on any store, in every state of every run, a source whose slice
   is not what a reconcile would now write is queued, has an event under way that will queue it, or
   has a worker that, unless something changes first, will write just that, or will at least change
   the slice and so wake the source again.
   */
  lemma {:induction false} NoLostWakeups(w: World, s: System, acts: seq<Action>, k: NamespacedName)
    requires LeaderNamesDistinct(w) && Sound(w, s) && (JustStarted(s) || AllAttended(s)) && ReliableRun(w, s, acts)
    requires var t := Reached(w, s, acts); k in t.store.services && Source(t.store.services[k])
    ensures var t := Reached(w, s, acts);
            var svc := t.store.services[k];
            && Attended(t, k, svc)
            && (!UpToDate(t, svc) ==> Woken(t, k) || (k in t.workers && OnCourse(t, svc, t.workers[k])))
    decreases |acts|
  {
    hide LeaderServiceName, Act, Sound, Reliable, Source, UpToDate, OnCourse;
    if JustStarted(s) { StartIsAttended(s); }
    if acts != [] {
      AttentionIsInductive(w, s, acts[0]);
      NoLostWakeups(w, Act(s, acts[0]), acts[1..], k);
    }
  }

  lemma StartIsAttended(s: System)
    requires JustStarted(s)
    ensures AllAttended(s)
  {
    hide LeaderServiceName, Source, Good;
    forall k | k in s.store.services ensures Attended(s, k, s.store.services[k]) {
      assert ServiceEvent(k) in s.events && Calls(s, ServiceEvent(k), k);
    }
  }

  /** A director at rest has every slice as it should be: with nothing queued, announced or in progress, every source is up to date. */
  lemma RestMeansUpToDate(w: World, s: System, acts: seq<Action>, k: NamespacedName, listing: seq<Pod>, now: Time)
    requires LeaderNamesDistinct(w) && Sound(w, s) && JustStarted(s) && ReliableRun(w, s, acts)
    requires var t := Reached(w, s, acts);
             && t.queue == {} && t.workers == map[] && t.events == multiset{}
             && k in t.store.services && Source(t.store.services[k]) && IsListing(listing, t.store, t.store.services[k])
    ensures var t := Reached(w, s, acts);
            var svc := t.store.services[k];
            LeaderKey(svc) in t.store.slices && t.store.slices[LeaderKey(svc)].body == WantedBody(t.store, svc, listing, now)
  {
    hide LeaderServiceName, Sound, Source, WantedBody, IsListing, JustStarted, ReliableRun, Reached, OnCourse;
    NoLostWakeups(w, s, acts, k);
  }
}
