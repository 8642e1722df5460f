/**
 A small cluster that meets the hypotheses of the theorems about runs, and on which promises that
 the code does not keep fail: Service `web` in namespace `default`, whose slice routes to pod `a`,
 which is terminating but Ready, while the older pod `b` is healthy.
 */
module Example {
  import opened Wrappers
  import opened Kube
  import opened Selection
  import opened Routing
  import opened OptedIn
  import opened Reconciling
  import opened Runs
  import opened SteadyState
  import opened FailedWrites
  import opened Watches
  import Quiescence
  import Confinement
  import Interleaving
  import Wakeups
  import CacheFollowing
  import SharedSlices
  import Provenance
  import FlapDamping
  import OverlookedLoss
  import Unheard

  const WEB := NamespacedName("default", "web")
  const LEADER := NamespacedName("default", "web-leader")

  /** Pods are named by their UIDs, leader Services after their sources. */
  const WORLD := World((u: UID) => NamespacedName("default", u), (k: NamespacedName) => NamespacedName(k.namespace, k.name + "-leader"))

  /** One port, whose target is a number or a name; the pods declare no named port. */
  function Port(target: TargetPort): seq<ServicePort> {
    [ServicePort("http", "TCP", 80, target)]
  }

  function Web(target: TargetPort): Service {
    Service(WEB, "s", map[], map[ANNOTATION_ENABLED := "true"], map["app" := "web"], Port(target), "ClusterIP", false)
  }

  function PodNamed(uid: UID, creation: Time, deletion: Option<Time>): Pod {
    Pod(NamespacedName("default", uid), uid, map["app" := "web"], creation, deletion, Running,
        [PodCondition("Ready", StatusTrue, creation)], "10.0.0." + uid, "node", [])
  }

  const LEAVING := PodNamed("a", 2, Some(9))
  const STAYING := PodNamed("b", 1, None)
  const LISTING := [LEAVING, STAYING]
  const PODS := map[LEAVING.key := LEAVING, STAYING.key := STAYING]

  function LeavingSlice(target: TargetPort): EndpointSlice {
    EndpointSlice(LEADER, SliceLabels(Web(target)), "web-leader", "", SliceBody(IPv4, [LeaderEndpoint(Some(LEAVING))], []))
  }

  function Cluster(target: TargetPort): Store {
    Store(map[WEB := Web(target)], PODS, map[LEADER := LeavingSlice(target)])
  }

  function Start(target: TargetPort): Director {
    Director(Cluster(target), Some(map[]), map[])
  }

  function Meeting(failing: set<Call>): Answers {
    Answers(10, failing, LISTING, [], [], "fresh")
  }

  /** The names are valid, which the abstract checks of DNS names leave open. */
  predicate NamesAreValid() {
    IsDNS1123Label("default") && IsDNS1123Subdomain("web") && IsDNS1123Subdomain("api") && IsDNS1123Subdomain("web-leader")
  }

  // ---------- The cluster is as the theorems suppose ----------

  lemma LeaderNamesAreDistinct()
    ensures LeaderNamesDistinct(WORLD)
  {
    forall a, b | WORLD.leader(a) == WORLD.leader(b) ensures a == b {
      var name := a.name + "-leader";
      assert name == b.name + "-leader";
      assert a.name == name[..|name| - 7] == b.name;
    }
  }

  lemma WebIsPlain(target: TargetPort)
    requires NamesAreValid()
    ensures LeaderKey(Web(target)) == LEADER == WORLD.leader(WEB) && LEADER != WEB
    ensures Source(Web(target)) && Sticky(Web(target)) && MinReadyDuration(Web(target)) == 0 && Plain(Web(target))
  {
    assert "web" + "-leader" == "web-leader";
    assert |"web-leader"| != |"web"|;
    assert ANNOTATION_STICKY[12] == 's' && ANNOTATION_ENABLED[12] == 'e' && ANNOTATION_MIN_READY[12] == 'm'
      && ANNOTATION_LEADER_SERVICE_NAME[12] == 'l' && ANNOTATION_CURRENT_LEADER[12] == 'c'
      && ANNOTATION_LEADER_POD_NAME[12] == 'l' && ANNOTATION_LEADER_POD_UID[12] == 'l';
  }

  lemma PodsAreReady(target: TargetPort)
    ensures IsPodReady(LEAVING) && IsPodReady(STAYING) && !Healthy(LEAVING) && Healthy(STAYING)
    ensures Matches(Web(target), LEAVING) && Matches(Web(target), STAYING) && LEAVING.key != STAYING.key
    ensures forall now :: Eldest(LISTING, 0, now) == Some(STAYING)
    ensures Addressed(Some(LEAVING)) && Addressed(Some(STAYING)) && LEAVING.uid == "a" != "" && STAYING.uid == "b" != ""
    ensures WORLD.home("a") == LEAVING.key && WORLD.home("b") == STAYING.key && LEAVING.uid != STAYING.uid
  {
    assert "a" != "b" by { assert "a"[0] != "b"[0]; }
    assert |"10.0.0." + "a"| == |"10.0.0." + "b"| == 8;
    forall now ensures Eldest(LISTING, 0, now) == Some(STAYING) {
      assert LISTING[1..] == [STAYING] && [STAYING][1..] == [];
      assert Eldest([STAYING], 0, now) == Some(STAYING);
    }
  }

  lemma ListingIsListing(target: TargetPort)
    ensures IsListing(LISTING, Cluster(target), Web(target)) && PodsOf(WORLD, PODS)
  {
    hide LEAVING, STAYING, SliceLabels, Matches, LeaderEndpoint;
    PodsAreReady(target);
    PodsAreKeyed();
  }

  lemma PodsAreKeyed()
    ensures PODS == map[LEAVING.key := LEAVING, STAYING.key := STAYING] && LEAVING.key != STAYING.key
  {
    PodsAreReady(Number(0));
  }

  lemma SliceLeadsToLeaving(target: TargetPort)
    ensures SingleEndpoint(WORLD, LeavingSlice(target)) && Target(LeavingSlice(target)) == Some(TargetRef("Pod", LEAVING.key, "a"))
  {
    hide SliceLabels, IsPodReady;
    PodsAreReady(target);
  }

  lemma StoreIsWellFormed(target: TargetPort)
    requires NamesAreValid()
    ensures StoreOf(WORLD, Cluster(target)) && TargetPod(Cluster(target), LEADER) == Some(LEAVING)
  {
    hide LeaderServiceName, SliceLabels, LEAVING, STAYING, LeaderEndpoint, SingleEndpoint, PodsOf;
    WebIsPlain(target);
    PodsAreReady(target);
    ListingIsListing(target);
    SliceLeadsToLeaving(target);
  }

  lemma StayingIsChosen(target: TargetPort, now: Time)
    requires NamesAreValid()
    ensures Choice(Cluster(target), Web(target), LISTING, now) == Some(STAYING)
    ensures LeavesReadyTarget(Cluster(target), Web(target), LISTING, STAYING)
  {
    hide LeaderServiceName, IsPodReady, Healthy, Eldest, MinReadyDuration, Sticky, StickyLeader, StoreOf;
    WebIsPlain(target);
    PodsAreReady(target);
    StoreIsWellFormed(target);
  }

  lemma PortResolvesIffNumber(target: TargetPort, pod: Option<Pod>)
    requires pod.None? || pod.value.containers == []
    ensures Resolvable(Port(target), pod) <==> target.Number?
  {
    ResolutionIsAllOrNothing(Port(target), pod);
    assert Port(target)[0] in Port(target) && forall p :: p in Port(target) ==> p == Port(target)[0];
  }

  lemma ReconcileIsPossible(target: TargetPort, failing: set<Call>)
    requires NamesAreValid()
    ensures var d := Start(target);
            && StoreOf(WORLD, d.store) && LeaderNamesDistinct(WORLD) && CacheAgrees(WORLD, d)
            && Admissible(WORLD, d, Reconciles(WEB, Meeting(failing))) && Plain(Web(target))
            && (GetService !in failing && ListPods !in failing ==> Routes(d, WEB, Meeting(failing)))
  {
    hide LeaderServiceName, SliceLabels, IsListing, StoreOf, LEAVING, STAYING, Plain, Enabled;
    LeaderNamesAreDistinct();
    WebIsPlain(target);
    StoreIsWellFormed(target);
    ListingIsListing(target);
    NotLabelled(target);
  }

  lemma NotLabelled(target: TargetPort)
    ensures forall source :: !LabelledFor(Web(target), source)
  {
  }

  /** The hypotheses of quiescence and of crash and restart can be met, by a reconcile that does write. */
  lemma PlainReconcileIsPossible()
    requires NamesAreValid()
    ensures var d := Start(Number(8080));
            && PlainReconcile(WORLD, d, WEB, Meeting({})) && Reconcile(d, WEB, Meeting({})).writes != []
            && Resolvable(Port(Number(8080)), Choice(d.store, Web(Number(8080)), LISTING, 10))
  {
    hide LeaderServiceName, Reconcile, Choice, StoreOf, Admissible, Routes, Plain, CacheAgrees, Settled, OnlyAt, LEAVING, STAYING;
    var d := Start(Number(8080));
    ReconcileIsPossible(Number(8080), {});
    WebIsPlain(Number(8080));
    StayingIsChosen(Number(8080), 10);
    PodsAreReady(Number(8080));
    StayingHasNoContainers();
    PortResolvesIffNumber(Number(8080), Some(STAYING));
    PlainReconcileSettles(WORLD, d, WEB, Meeting({}));
    SliceLeadsToLeaving(Number(8080));
  }

  lemma StayingHasNoContainers()
    ensures STAYING.containers == []
  {
  }

  // ---------- Promises that fail ----------

  /**
   The slice patch to the healthy pod fails; the retry, all of whose calls succeed, selects the
   terminating pod again.
   */
  lemma RetryGoesBackToTheLeavingPod()
    requires NamesAreValid()
    ensures var d, svc := Start(Number(8080)), Web(Number(8080));
            var d1 := Reconcile(d, WEB, Meeting({PatchSlice})).director;
            && RoutingFails(WORLD, d, WEB, Meeting({PatchSlice}))
            && Chosen(d, svc, Meeting({PatchSlice})).0 == Some(STAYING)
            && Choose(d1.store, d1.leaderCache, svc, Meeting({})).0 == Some(LEAVING)
  {
    hide LeaderServiceName, Reconcile, RoutingFails, Choice, StoreOf, Plain, LEAVING, STAYING, Choose, Chosen, LeavesReadyTarget, Source, Sticky,
      MinReadyDuration, IsListing, LeavingSlice, TargetPod;
    var d := Start(Number(8080));
    FirstPatchFails();
    WebIsPlain(Number(8080));
    StoreIsWellFormed(Number(8080));
    ListingIsListing(Number(8080));
    StayingIsChosen(Number(8080), 10);
    StayingHasNoContainers();
    PortResolvesIffNumber(Number(8080), Some(STAYING));
    FailedRoutingKeepsSlices(WORLD, d, WEB, Meeting({PatchSlice}));
    RetryRepeatsIffTargetNotReady(WORLD, d, WEB, Meeting({PatchSlice}), Meeting({}));
  }

  lemma FirstPatchFails()
    requires NamesAreValid()
    ensures RoutingFails(WORLD, Start(Number(8080)), WEB, Meeting({PatchSlice}))
  {
    hide LeaderServiceName, Reconcile, Route, Choice, StoreOf, Admissible, Plain, CacheAgrees, LEAVING, STAYING, Choose, LeavesReadyTarget, Source, Sticky,
      MinReadyDuration, LeavingSlice, Resolvable;
    var d, a := Start(Number(8080)), Meeting({PatchSlice});
    ReconcileIsPossible(Number(8080), {PatchSlice});
    WebIsPlain(Number(8080));
    StoreIsWellFormed(Number(8080));
    ReconcileRoutesOrCleans(d, WEB, a);
    NumberResolves(8080, Chosen(d, Web(Number(8080)), a).0);
    RouteWithFailedPatch(d.store, Web(Number(8080)), Chosen(d, Web(Number(8080)), a).0, a);
  }

  // ---------- The cluster after a reconcile that routed to `a` while it was healthy ----------

  const NUMBER := Number(8080)
  const LEADER_SERVICE := NewLeaderService(Web(NUMBER), Some(LEAVING), RoutedPorts(Web(NUMBER), Some(LEAVING)), 0, "u")

  function ServedSlice(): EndpointSlice {
    EndpointSlice(LEADER, SliceLabels(Web(NUMBER)), "web-leader", "u", Interleaving.BodyFor(Web(NUMBER), Some(LEAVING)))
  }

  function Served(): Store {
    Store(map[WEB := Web(NUMBER), LEADER := LEADER_SERVICE], PODS, map[LEADER := ServedSlice()])
  }

  lemma LeavingResolves()
    ensures Resolvable(Port(NUMBER), Some(LEAVING)) && Routed(Web(NUMBER), Some(LEAVING)) == Some(LEAVING)
  {
    PortResolvesIffNumber(NUMBER, Some(LEAVING));
  }

  lemma ServedIsSettled()
    requires NamesAreValid()
    ensures Settled(Served(), Web(NUMBER), Some(LEAVING)) && LEADER_SERVICE.key == LEADER && LEADER_SERVICE.selector == map[]
  {
    hide LeaderServiceName, SliceLabels, LeaderBody, NewLeaderService, UpdatedLeaderService, LEAVING, RoutedPorts, Plain, Resolvable;
    WebIsPlain(NUMBER);
    LeavingResolves();
    ResolvedPortsOfRouted(Web(NUMBER), Some(LEAVING));
    forall now ensures UpdatedLeaderService(LEADER_SERVICE, Web(NUMBER), Some(LEAVING), RoutedPorts(Web(NUMBER), Some(LEAVING)), now) == LEADER_SERVICE {
      WebHasNoLeaderAnnotations();
      NewIsSettled(Web(NUMBER), Some(LEAVING), RoutedPorts(Web(NUMBER), Some(LEAVING)), 0, "u", now);
    }
  }

  lemma WebHasNoLeaderAnnotations()
    requires NamesAreValid()
    ensures Web(NUMBER).annotations.Keys !! {ANNOTATION_CURRENT_LEADER, ANNOTATION_LEADER_POD_NAME, ANNOTATION_LEADER_POD_UID}
  {
    WebIsPlain(NUMBER);
  }

  lemma ServedSliceLeadsToLeaving()
    ensures SingleEndpoint(WORLD, ServedSlice()) && Target(ServedSlice()) == Some(TargetRef("Pod", LEAVING.key, "a"))
  {
    hide SliceLabels, LEAVING, LeaderBody, RoutedPorts, Resolvable, IsPodReady;
    PodsAreReady(NUMBER);
    LeavingResolves();
    ResolvedPortsOfRouted(Web(NUMBER), Some(LEAVING));
    BodyRefersToChosen(WORLD, ServedSlice(), Web(NUMBER), Some(LEAVING));
  }

  lemma SourceAndBystander(w: World, source: Service, other: Service)
    requires source.key != other.key && LeaderKey(source) == w.leader(source.key) && other.selector == map[]
    ensures ServicesOf(w, map[source.key := source, other.key := other])
  {
    hide LeaderServiceName, Enabled;
  }

  lemma ServedServices()
    requires NamesAreValid()
    ensures ServicesOf(WORLD, Served().services) && PodsOf(WORLD, Served().pods)
  {
    hide LEADER_SERVICE, ServedSlice, PODS, LISTING, PodsOf, ServicesOf, LeaderServiceName, Plain, Source, Sticky, MinReadyDuration, Settled;
    WebIsPlain(NUMBER);
    ServedIsSettled();
    ListingIsListing(NUMBER);
    SourceAndBystander(WORLD, Web(NUMBER), LEADER_SERVICE);
  }

  lemma ServedTarget()
    ensures Served().pods == PODS && LEAVING.key in PODS && PODS[LEAVING.key] == LEAVING && LEAVING.uid == "a"
    ensures Served().slices == map[LEADER := ServedSlice()]
  {
    PodsAreKeyed();
  }

  lemma ServedIsWellFormed()
    requires NamesAreValid()
    ensures StoreOf(WORLD, Served()) && TargetPod(Served(), LEADER) == Some(LEAVING)
    ensures Target(ServedSlice()) == Some(TargetRef("Pod", LEAVING.key, "a"))
  {
    hide LEAVING, STAYING, PODS, PodsOf, ServicesOf, Served, SingleEndpoint, Target, SliceLabels, Interleaving.BodyFor;
    ServedServices();
    ServedTarget();
    ServedSliceLeadsToLeaving();
  }

  lemma FailoverIsDueNow()
    requires NamesAreValid()
    ensures FailoverIsDue(Served(), Web(NUMBER), LISTING, 10) && IsListing(LISTING, Served(), Web(NUMBER))
    ensures Choice(Served(), Web(NUMBER), LISTING, 10) == Some(STAYING)
  {
    hide LeaderServiceName, IsPodReady, Healthy, Eldest, MinReadyDuration, Sticky, StickyLeader, StoreOf, LEAVING, STAYING, PODS, LEADER_SERVICE,
      SliceLabels, Interleaving.BodyFor, Matches, Plain;
    WebIsPlain(NUMBER);
    PodsAreReady(NUMBER);
    ServedIsWellFormed();
    ListingIsListing(NUMBER);
  }

  /** The read of the slice, or of its target, fails, `a` is chosen again, the reconcile succeeds, and nothing is written. */
  lemma HiddenFailoverKeepsTheLeavingPod(read: Call)
    requires NamesAreValid() && (read == GetSlice || read == GetPod(0))
    ensures var d, a := Director(Served(), Some(map[]), map[]), Meeting({read});
            && Choice(d.store, Web(NUMBER), LISTING, 10) == Some(STAYING)
            && Choose(d.store, d.leaderCache, Web(NUMBER), a).0 == Some(LEAVING)
            && Reconcile(d, WEB, a).ok && Reconcile(d, WEB, a).writes == []
  {
    hide LeaderServiceName, Reconcile, Choose, Choice, Plain, StoreOf, FailoverIsDue, Settled, Resolvable, LEAVING, STAYING, IsListing, Bypasses,
      NewLeaderService, SliceLabels;
    var d, a := Director(Served(), Some(map[]), map[]), Meeting({read});
    WebIsPlain(NUMBER);
    ServedIsWellFormed();
    ServedIsSettled();
    FailoverIsDueNow();
    LeavingResolves();
    FailedReadHidesFailover(WORLD, d, Web(NUMBER), a);
    HiddenFailoverIsSilent(WORLD, d, WEB, a);
  }

  /** With a port name that no pod declares, a second reconcile right after a successful one writes again. */
  lemma UnresolvedNameIsWrittenAgain(b: Answers)
    requires NamesAreValid() && b.failing == {}
    requires Admissible(WORLD, Reconcile(Start(Named("http")), WEB, Meeting({})).director, Reconciles(WEB, b))
    ensures PlainReconcile(WORLD, Start(Named("http")), WEB, Meeting({}))
    ensures Reconcile(Reconcile(Start(Named("http")), WEB, Meeting({})).director, WEB, b).writes != []
  {
    hide LeaderServiceName, Reconcile, Choice, StoreOf, Admissible, Routes, Plain, CacheAgrees, LEAVING, STAYING;
    ReconcileIsPossible(Named("http"), {});
    StayingIsChosen(Named("http"), 10);
    StayingHasNoContainers();
    PortResolvesIffNumber(Named("http"), Some(STAYING));
    QuiescentIffPortsResolve(WORLD, Start(Named("http")), WEB, Meeting({}), b);
  }

  // ---------- The other hypotheses ----------

  lemma ChoiceIsListed(store: Store, svc: Service, listing: seq<Pod>, now: Time)
    requires store.pods == PODS && IsListing(listing, store, svc)
    ensures var c := Choice(store, svc, listing, now); c.Some? ==> c.value.containers == []
  {
    hide Choice, Matches;
    var c := Choice(store, svc, listing, now);
    if c.Some? { assert c.value.key in PODS && PODS[c.value.key] == c.value; }
  }

  lemma ClusterIsFrozen()
    requires NamesAreValid()
    ensures Quiescence.Frozen(WORLD, Start(Number(8080)), {WEB})
  {
    hide LeaderServiceName, Choice, StoreOf, Admissible, Routes, Plain, CacheAgrees, LEAVING, STAYING, Resolvable, IsListing, SliceLabels, LabelledFor;
    var store, svc := Cluster(Number(8080)), Web(Number(8080));
    ReconcileIsPossible(Number(8080), {});
    WebIsPlain(Number(8080));
    NotLabelled(Number(8080));
    forall listing, now | IsListing(listing, store, svc) ensures Resolvable(svc.ports, Choice(store, svc, listing, now)) {
      ChoiceIsListed(store, svc, listing, now);
      PortResolvesIffNumber(Number(8080), Choice(store, svc, listing, now));
    }
  }

  lemma ClusterIsConfined(target: TargetPort)
    requires NamesAreValid()
    ensures Confinement.Confined(WORLD, Cluster(target).services)
  {
    hide LeaderServiceName, SliceLabels, LEAVING, STAYING, LabelledFor;
    WebIsPlain(target);
    NotLabelled(target);
    assert !Confinement.IsLeaderName(WORLD, WEB) by {
      forall source ensures WORLD.leader(source) != WEB {
        assert |source.name + "-leader"| >= 7 && |"web"| == 3;
      }
    }
  }

  /** A start of the interleaved system, with the event of the watch's first list. */
  function Booted(target: TargetPort): Interleaving.System {
    Interleaving.System(Cluster(target), Some(map[]), map[], {}, map[], multiset{Interleaving.ServiceEvent(WEB)}, {})
  }

  lemma ClusterParts(target: TargetPort)
    ensures Cluster(target).services == map[WEB := Web(target)] && Cluster(target).slices == map[LEADER := LeavingSlice(target)]
  {
    hide SliceLabels, LEAVING, STAYING, LeaderEndpoint;
  }

  lemma BootedIsSound(target: TargetPort)
    requires NamesAreValid()
    ensures Wakeups.Sound(WORLD, Booted(target)) && Wakeups.JustStarted(Booted(target)) && CacheFollowing.CacheFollows(WORLD, Booted(target))
  {
    hide LeaderServiceName, Cluster, LeavingSlice, SingleEndpoint, MinReadyDuration, Enabled, Sticky, Plain, SliceRequests, PodsOf;
    WebIsPlain(target);
    StoreIsWellFormed(target);
    ClusterParts(target);
    LeaderNamesAreDistinct();
    LeavingSliceNamesWeb(target);
    forall k | WORLD.leader(k) in Booted(target).store.slices ensures k == WEB {
      assert WORLD.leader(k) == WORLD.leader(WEB);
    }
  }

  lemma LeavingSliceNamesWeb(target: TargetPort)
    requires NamesAreValid()
    ensures WEB in SliceRequests(LeavingSlice(target))
  {
    hide LeaderServiceName, SliceLabels, SliceRequests, LEAVING, LeaderEndpoint;
    WebIsPlain(target);
    NewSliceNamesItsSource(Web(target), "", LeavingSlice(target).body);
  }

  // ---------- Two sources under one leader name ----------

  const API := NamespacedName("default", "api")

  /** A second source, which asks for the leader Service name of the first. */
  const API_SERVICE := Service(API, "t", map[], map[ANNOTATION_ENABLED := "true", ANNOTATION_LEADER_SERVICE_NAME := "web-leader"],
                               map["app" := "api"], Port(Number(9090)), "ClusterIP", false)
  const API_POD := PodNamed("c", 1, None).(labels := map["app" := "api"])

  /** Pod `a`, to which the slice still routes, is gone; both sources have one pod and wait in the queue. */
  function Shared(): Store {
    Store(map[WEB := Web(NUMBER), API := API_SERVICE], map[STAYING.key := STAYING, API_POD.key := API_POD], map[LEADER := ServedSlice()])
  }

  function Contested(): Interleaving.System {
    Interleaving.System(Shared(), Some(map[]), map[], {WEB, API}, map[], multiset{}, {})
  }

  /** In this world all sources share one name. */
  const ONE_NAME := World((u: UID) => NamespacedName("default", u), (k: NamespacedName) => LEADER)

  lemma ApiIsSource()
    requires NamesAreValid()
    ensures LeaderKey(API_SERVICE) == LEADER && API != WEB && API != LEADER && Source(API_SERVICE) && MinReadyDuration(API_SERVICE) == 0
  {
    assert "api"[0] != "web"[0] && |"api"| != |"web-leader"|;
    assert ANNOTATION_ENABLED[12] == 'e' && ANNOTATION_MIN_READY[12] == 'm' && ANNOTATION_LEADER_SERVICE_NAME[12] == 'l';
  }

  lemma SharedPods()
    ensures IsPodReady(STAYING) && IsPodReady(API_POD) && STAYING.key != API_POD.key && LEAVING.key !in Shared().pods
    ensures PodsOf(ONE_NAME, Shared().pods)
    ensures !Matches(Web(NUMBER), API_POD) && !Matches(API_SERVICE, STAYING)
    ensures Matches(Web(NUMBER), STAYING) && Matches(API_SERVICE, API_POD)
    ensures STAYING.containers == [] && API_POD.containers == []
  {
    assert "a"[0] != "b"[0] && "a"[0] != "c"[0] && "b"[0] != "c"[0];
    assert "web"[0] != "api"[0];
    assert STAYING.labels["app"] == "web" && API_POD.labels["app"] == "api";
  }

  lemma OnePodListing(svc: Service, pod: Pod, store: Store)
    requires pod.key in store.pods && store.pods[pod.key] == pod && Matches(svc, pod)
    requires forall k :: k in store.pods && Matches(svc, store.pods[k]) ==> k == pod.key
    ensures IsListing([pod], store, svc)
  {
    hide Matches;
  }

  lemma SharedListings()
    requires NamesAreValid()
    ensures IsListing([STAYING], Shared(), Web(NUMBER)) && IsListing([API_POD], Shared(), API_SERVICE)
  {
    hide LEAVING, STAYING, API_POD, Matches, SliceLabels, IsPodReady;
    SharedPods();
    OnePodListing(Web(NUMBER), STAYING, Shared());
    OnePodListing(API_SERVICE, API_POD, Shared());
  }

  lemma TwoSources(w: World, one: Service, other: Service)
    requires one.key != other.key && LeaderKey(one) == w.leader(one.key) && LeaderKey(other) == w.leader(other.key)
    ensures ServicesOf(w, map[one.key := one, other.key := other])
  {
    hide LeaderServiceName, Enabled;
  }

  lemma SharedServices()
    requires NamesAreValid()
    ensures ServicesOf(ONE_NAME, Shared().services) && WEB != API
    ensures Shared().services.Keys == {WEB, API} && Shared().services[WEB] == Web(NUMBER) && Shared().services[API] == API_SERVICE
  {
    hide ServedSlice, STAYING, API_POD, ServicesOf, LeaderServiceName, Plain, Source, Sticky, MinReadyDuration;
    WebIsPlain(NUMBER);
    ApiIsSource();
    TwoSources(ONE_NAME, Web(NUMBER), API_SERVICE);
  }

  lemma SharedSlicesAreSingle()
    ensures SlicesOf(ONE_NAME, Shared().slices) && Shared().slices == map[LEADER := ServedSlice()]
    ensures TargetPod(Shared(), LEADER).None?
  {
    hide LEAVING, STAYING, API_POD, API_SERVICE, SingleEndpoint, Target, SliceLabels, Interleaving.BodyFor, IsPodReady, Matches;
    SharedPods();
    ServedSliceLeadsToLeaving();
    SameHomes(ServedSlice());
  }

  lemma SharedIsWellFormed()
    requires NamesAreValid()
    ensures StoreOf(ONE_NAME, Shared()) && TargetPod(Shared(), LEADER).None?
  {
    hide Shared, PodsOf, ServicesOf, SlicesOf, TargetPod;
    SharedServices();
    SharedPods();
    SharedSlicesAreSingle();
  }

  lemma SameHomes(slice: EndpointSlice)
    requires SingleEndpoint(WORLD, slice)
    ensures SingleEndpoint(ONE_NAME, slice)
  {
  }

  /** Where the slice's target is gone, a source with one Ready pod will choose that pod. */
  lemma OnePodIsChosen(svc: Service, pod: Pod, a: Answers)
    requires StoreOf(ONE_NAME, Shared()) && TargetPod(Shared(), LEADER).None? && LeaderKey(svc) == LEADER && MinReadyDuration(svc) == 0
    requires IsListing([pod], Shared(), svc) && IsPodReady(pod) && a.failing == {} && a.listing == [pod]
    ensures Runs.Chosen(Director(Shared(), Some(map[]), map[]), svc, a).0 == Some(pod)
  {
    hide LeaderServiceName, Choose, Shared, MinReadyDuration, IsPodReady, StickyLeader, Sticky;
    var d := Director(Shared(), Some(map[]), map[]);
    ChooseIsChoice(ONE_NAME, d, svc, a);
    if LEADER in Shared().slices { StickyHitIsTarget(ONE_NAME, Shared(), svc, [pod]); }
    assert Eldest([pod], 0, a.now) == Some(pod) by { assert [pod][1..] == []; }
  }

  lemma NumberIsKept(n: int, pod: Option<Pod>)
    ensures ResolvePorts(Port(Number(n)), pod) == Success(Port(Number(n)))
  {
    NumberResolves(n, pod);
    ResolutionIsAllOrNothing(Port(Number(n)), pod);
    var r := ResolvePorts(Port(Number(n)), pod).value;
    assert ResolvedFrom(r[0], Port(Number(n))[0], pod);
    assert r[0].targetPort == Number(n) && r[0] == Port(Number(n))[0];
    assert r == [r[0]];
  }

  lemma NumberResolves(n: int, pod: Option<Pod>)
    ensures Resolvable(Port(Number(n)), pod)
  {
    ResolutionIsAllOrNothing(Port(Number(n)), pod);
    assert forall p :: p in Port(Number(n)) ==> p == Port(Number(n))[0];
  }

  lemma ContestedWaits(k: NamespacedName)
    requires NamesAreValid() && (k == WEB || k == API)
    ensures SharedSlices.Waiting(Contested(), k) && k in Shared().services && LeaderKey(Shared().services[k]) == LEADER
  {
    hide ServedSlice, API_SERVICE, STAYING, API_POD, Source, LeaderServiceName, Plain, Sticky, MinReadyDuration, ServicesOf, SingleEndpoint, Shared;
    WebIsPlain(NUMBER);
    ApiIsSource();
    SharedServices();
    SharedSlicesAreSingle();
    ApiHasAPort();
    assert forall j :: j in Shared().services ==> Shared().services[j].key == j by { ServicesAreKeyed(Shared().services); }
  }

  lemma ApiHasAPort()
    ensures API_SERVICE.ports == Port(Number(9090)) && API_SERVICE.key == API
  {
  }

  lemma ServicesAreKeyed(services: map<NamespacedName, Service>)
    requires ServicesOf(ONE_NAME, services)
    ensures forall j :: j in services ==> services[j].key == j
  {
  }

  lemma ContestedChoices(a: Answers)
    requires NamesAreValid() && a.failing == {}
    ensures Runs.Chosen(Director(Shared(), Some(map[]), map[]), API_SERVICE, a.(listing := [API_POD])).0 == Some(API_POD)
    ensures Runs.Chosen(Director(Shared(), Some(map[]), map[]), Web(NUMBER), a.(listing := [STAYING])).0 == Some(STAYING)
    ensures Resolvable(API_SERVICE.ports, Some(API_POD)) && Resolvable(Web(NUMBER).ports, Some(STAYING))
  {
    hide Shared, STAYING, API_POD, LeaderServiceName, Plain, Source, Sticky, MinReadyDuration, Runs.Chosen, StoreOf, IsListing, Resolvable, IsPodReady,
      TargetPod;
    WebIsPlain(NUMBER);
    ApiIsSource();
    ApiHasAPort();
    SharedPods();
    SharedIsWellFormed();
    SharedListings();
    OnePodIsChosen(Web(NUMBER), STAYING, a.(listing := [STAYING]));
    OnePodIsChosen(API_SERVICE, API_POD, a.(listing := [API_POD]));
    PortResolvesIffNumber(NUMBER, Some(STAYING));
    PortResolvesIffNumber(Number(9090), Some(API_POD));
  }

  lemma ContestedIsShared(a: Answers)
    requires NamesAreValid() && a.failing == {}
    ensures SharedSlices.SharesSlice(Contested(), API, WEB, [API_POD], [STAYING], a)
    ensures SharedSlices.WillChoose(Contested(), API, [API_POD], a) == Some(API_POD)
    ensures SharedSlices.WillChoose(Contested(), WEB, [STAYING], a) == Some(STAYING)
    ensures Contested().store.services[API] == API_SERVICE && Contested().store.services[WEB] == Web(NUMBER)
  {
    hide Shared, STAYING, API_POD, API_SERVICE, LeaderServiceName, Runs.Chosen, IsListing, Resolvable, SharedSlices.Waiting, ServicesOf, SlicesOf,
      TargetPod;
    ContestedWaits(WEB);
    ContestedWaits(API);
    SharedServices();
    SharedSlicesAreSingle();
    SharedListings();
    ContestedChoices(a);
  }

  lemma NumberBody(svc: Service, n: int, pod: Pod)
    requires svc.ports == Port(Number(n)) && pod.podIP != ""
    ensures var body := Interleaving.BodyFor(svc, Some(pod));
            body.endpoints == [LeaderEndpoint(Some(pod))] && body.endpoints[0].addresses == [pod.podIP]
            && |body.ports| == 1 && body.ports[0].port == n && body.ports == EndpointPorts(Port(Number(n)))
  {
    NumberIsKept(n, Some(pod));
  }

  lemma Addresses()
    ensures STAYING.podIP == "10.0.0.b" && LEAVING.podIP == "10.0.0.a" && API_POD.podIP == "10.0.0.c"
    ensures STAYING.podIP != LEAVING.podIP && STAYING.podIP != "" && LEAVING.podIP != "" && API_POD.podIP != ""
  {
    assert "10.0.0.b"[7] == 'b' && "10.0.0.a"[7] == 'a';
  }

  /** After a run without any failure the slice routes to `b` under the port of `api`, which `b` does not serve. */
  lemma SharedSliceMixesPods(a: Answers)
    requires NamesAreValid() && a.failing == {}
    ensures var acts := SharedSlices.Race(API, WEB, [API_POD], [STAYING], a);
            && Provenance.AllowedRun(ONE_NAME, Contested(), acts)
            && var slices := Provenance.After(ONE_NAME, Contested(), acts).store.slices;
               && LEADER in slices && |slices[LEADER].body.endpoints| == 1 && |slices[LEADER].body.ports| == 1
               && slices[LEADER].body.endpoints[0].addresses == ["10.0.0.b"] && slices[LEADER].body.ports[0].port == 9090
  {
    hide Shared, LEAVING, STAYING, API_POD, API_SERVICE, LeaderServiceName, Interleaving.BodyFor, LeaderEndpoint, SliceLabels,
      SharedSlices.SharesSlice, SharedSlices.WillChoose, SharedSlices.Race, Provenance.AllowedRun, Provenance.After, EndpointPorts;
    ContestedIsShared(a);
    SharedSlices.SharedSliceIsWantedIff(ONE_NAME, Contested(), API, WEB, [API_POD], [STAYING], a);
    SharedSlicesAreSingle();
    ContestedWaits(WEB);
    ApiHasAPort();
    Addresses();
    NumberBody(API_SERVICE, 9090, API_POD);
    NumberBody(Web(NUMBER), 8080, STAYING);
    NumberBody(Web(NUMBER), 8080, LEAVING);
  }

  // ---------- At rest ----------

  /** Only pod `b` is there, and the slice is as a reconcile that chose this leader left it. */
  function OnePod(svc: Service, leader: Option<Pod>): Store {
    Store(map[WEB := svc], map[STAYING.key := STAYING],
          map[LEADER := EndpointSlice(LEADER, SliceLabels(svc), "web-leader", "", Interleaving.BodyFor(svc, leader))])
  }

  function Resting(store: Store): Interleaving.System {
    Interleaving.System(store, Some(map[]), map[], {}, map[], multiset{}, {})
  }

  lemma StayingIsAtHome()
    ensures IsPodReady(STAYING) && Healthy(STAYING) && STAYING.uid != "" && WORLD.home(STAYING.uid) == STAYING.key
    ensures Addressed(Some(STAYING)) && STAYING.containers == [] && ReadySince(STAYING.conditions) == Some(1)
  {
    assert |"10.0.0." + "b"| == 8;
  }

  lemma OnePodSlice(svc: Service, leader: Option<Pod>)
    requires leader.None? || (leader == Some(STAYING) && svc.ports == Port(NUMBER))
    ensures var slice := OnePod(svc, leader).slices[LEADER];
            && SingleEndpoint(WORLD, slice)
            && Target(slice) == if leader.None? then None else Some(TargetRef("Pod", STAYING.key, STAYING.uid))
  {
    hide LeaderServiceName, SliceLabels, STAYING, IsPodReady, Healthy, LeaderBody, RoutedPorts, ResolvePorts;
    StayingIsAtHome();
    if leader.Some? { NumberResolves(8080, leader); }
    ResolvedPortsOfRouted(svc, leader);
    var slice := OnePod(svc, leader).slices[LEADER];
    BodyRefersToChosen(WORLD, slice, svc, leader);
  }

  lemma OnePodParts(svc: Service, leader: Option<Pod>)
    ensures var store := OnePod(svc, leader);
            && store.services == map[WEB := svc] && store.pods == map[STAYING.key := STAYING] && store.slices.Keys == {LEADER}
            && store.slices[LEADER].key == LEADER && store.slices[LEADER].body == Interleaving.BodyFor(svc, leader)
  {
    hide SliceLabels, STAYING, Interleaving.BodyFor;
  }

  lemma OnePodIsWellFormed(svc: Service, leader: Option<Pod>)
    requires svc.key == WEB && LeaderKey(svc) == LEADER == WORLD.leader(WEB)
    requires leader.None? || (leader == Some(STAYING) && svc.ports == Port(NUMBER))
    ensures StoreOf(WORLD, OnePod(svc, leader)) && TargetPod(OnePod(svc, leader), LEADER) == leader
  {
    hide LeaderServiceName, OnePod, STAYING, Enabled, IsPodReady, Healthy, SingleEndpoint, Target;
    StayingIsAtHome();
    OnePodParts(svc, leader);
    OnePodSlice(svc, leader);
  }

  /** The source with flap damping of ten seconds. */
  const DAMPED := Web(NUMBER).(annotations := map[ANNOTATION_ENABLED := "true", ANNOTATION_MIN_READY := "10s"])
  const TEN_SECONDS: Time := 10_000_000_000

  lemma DampedIsDamped()
    requires NamesAreValid() && ParseDuration("10s") == Some(TEN_SECONDS)
    ensures MinReadyDuration(DAMPED) == TEN_SECONDS && LeaderKey(DAMPED) == LEADER && Sticky(DAMPED)
    ensures DAMPED.key == WEB && DAMPED.ports == Port(NUMBER) && Matches(DAMPED, STAYING)
  {
    assert "web" + "-leader" == "web-leader";
    assert ANNOTATION_STICKY[12] == 's' && ANNOTATION_ENABLED[12] == 'e' && ANNOTATION_MIN_READY[12] == 'm'
      && ANNOTATION_LEADER_SERVICE_NAME[12] == 'l';
    assert "10s" != "0s" && "10s" != "" by { assert |"10s"| == 3; }
  }

  /** At instant 2 the one pod is too young and the slice rightly has no address; ten seconds on it should, and nobody is woken before the next resync. */
  lemma DampedPodIsNeverPickedUp(acts: seq<Interleaving.Action>)
    requires NamesAreValid() && ParseDuration("10s") == Some(TEN_SECONDS)
    requires Provenance.AllowedRun(WORLD, Resting(OnePod(DAMPED, None)), acts)
    requires forall i :: 0 <= i < |acts| ==> !Unheard.Stirs(acts[i])
    ensures var s := Resting(OnePod(DAMPED, None));
            var t := Provenance.After(WORLD, s, acts);
            && LEADER in s.store.slices && s.store.slices[LEADER].body == WantedBody(s.store, DAMPED, [STAYING], 2)
            && Unheard.AtRest(t) && LEADER in t.store.slices && IsListing([STAYING], t.store, DAMPED)
            && t.store.slices[LEADER].body != WantedBody(t.store, DAMPED, [STAYING], TEN_SECONDS + 1)
  {
    hide LeaderServiceName, OnePod, STAYING, DAMPED, StoreOf, IsListing, IsPodReady, Healthy, MinReadyDuration, Choice, Provenance.AllowedRun,
      Provenance.After, Interleaving.BodyFor, WantedBody, Resolvable, FlapDamping.Overtaken, FlapDamping.Held, TargetPod, Unheard.Stirs, Matches;
    DampedIsDamped();
    DampedStore();
    DampedChoices();
    var store := OnePod(DAMPED, None);
    Unheard.WantedIsBodyFor(store, DAMPED, [STAYING], 2);
    NumberResolves(8080, Some(STAYING));
    StayingIsAtHome();
    Unheard.ClockAloneUnsettlesASlice(WORLD, Resting(store), DAMPED, [STAYING], 2, TEN_SECONDS + 1, acts);
  }

  lemma DampedStore()
    requires NamesAreValid() && ParseDuration("10s") == Some(TEN_SECONDS)
    ensures var store := OnePod(DAMPED, None);
            && StoreOf(WORLD, store) && TargetPod(store, LEADER).None? && IsListing([STAYING], store, DAMPED)
            && LEADER in store.slices && store.slices[LEADER].body == Interleaving.BodyFor(DAMPED, None)
  {
    hide LeaderServiceName, OnePod, STAYING, DAMPED, StoreOf, IsPodReady, Healthy, TargetPod, Interleaving.BodyFor, MinReadyDuration, Sticky, Matches;
    DampedIsDamped();
    StayingIsAtHome();
    assert WORLD.leader(WEB) == LEADER by { assert "web" + "-leader" == "web-leader"; }
    OnePodIsWellFormed(DAMPED, None);
    OnePodParts(DAMPED, None);
    OnePodListing(DAMPED, STAYING, OnePod(DAMPED, None));
  }

  lemma DampedChoices()
    requires NamesAreValid() && ParseDuration("10s") == Some(TEN_SECONDS)
    ensures var store := OnePod(DAMPED, None);
            && Choice(store, DAMPED, [STAYING], 2).None? && Choice(store, DAMPED, [STAYING], TEN_SECONDS + 1) == Some(STAYING)
            && FlapDamping.Overtaken([STAYING], MinReadyDuration(DAMPED), 2, TEN_SECONDS + 1) && !FlapDamping.Held(store, DAMPED, [STAYING])
  {
    hide LeaderServiceName, OnePod, STAYING, DAMPED, StoreOf, IsListing, IsPodReady, Healthy, MinReadyDuration, Interleaving.BodyFor, StickyLeader, Sticky,
      Matches;
    DampedIsDamped();
    DampedStore();
    StayingIsAtHome();
    var store := OnePod(DAMPED, None);
    StickyHitIsTarget(WORLD, store, DAMPED, [STAYING]);
    assert [STAYING][1..] == [];
    assert FlapDamping.Matures(STAYING, TEN_SECONDS, 2, TEN_SECONDS + 1);
    assert Eldest([STAYING], TEN_SECONDS, 2) == None && Eldest([STAYING], TEN_SECONDS, TEN_SECONDS + 1) == Some(STAYING);
  }

  /** The leader gets a label that takes it out of the Service: until the next resync the slice goes on routing to it. */
  lemma RelabelledPodKeepsTheTraffic(acts: seq<Interleaving.Action>, now: Time)
    requires NamesAreValid()
    requires var t := Interleaving.Act(Resting(OnePod(Web(NUMBER), Some(STAYING))),
                                       Interleaving.ChangePod(STAYING.key, Some(Unheard.Relabelled(STAYING, map[]))));
             Provenance.AllowedRun(WORLD, t, acts) && forall i :: 0 <= i < |acts| ==> !Unheard.Stirs(acts[i])
    ensures var s := Resting(OnePod(Web(NUMBER), Some(STAYING)));
            var u := Provenance.After(WORLD, Interleaving.Act(s, Interleaving.ChangePod(STAYING.key, Some(Unheard.Relabelled(STAYING, map[])))), acts);
            && Unheard.AtRest(u) && u.store.slices == s.store.slices && LEADER in u.store.slices
            && u.store.slices[LEADER].body != WantedBody(u.store, Web(NUMBER), [], now)
  {
    hide LeaderServiceName, OnePod, STAYING, StoreOf, IsPodReady, Healthy, MinReadyDuration, Provenance.AllowedRun, Provenance.After, Interleaving.BodyFor,
      Interleaving.Act, Resolvable, TargetPod, Sticky, Plain, Source, WantedBody, Unheard.Stirs;
    WebIsPlain(NUMBER);
    StayingIsAtHome();
    OnePodParts(Web(NUMBER), Some(STAYING));
    OnePodIsWellFormed(Web(NUMBER), Some(STAYING));
    NumberResolves(8080, Some(STAYING));
    var s := Resting(OnePod(Web(NUMBER), Some(STAYING)));
    Unheard.RelabellingIsUnheard(s, STAYING.key, map[]);
    UnlabelledDoesNotMatch();
    Unheard.RelabelledLeaderKeepsTheTraffic(WORLD, s, Web(NUMBER), STAYING, map[], [], now, acts);
  }

  lemma UnlabelledDoesNotMatch()
    ensures !Matches(Web(NUMBER), Unheard.Relabelled(STAYING, map[]))
    ensures Unheard.Relabelled(STAYING, map[]).key == STAYING.key
  {
    assert "app" in Web(NUMBER).selector;
  }

  // ---------- A healthy leader is dropped ----------

  /** An older pod, terminating but Ready. */
  const ELDER := PodNamed("e", 0, Some(9))

  function WithElder(): Store {
    OnePod(Web(NUMBER), Some(STAYING)).(pods := map[STAYING.key := STAYING, ELDER.key := ELDER])
  }

  lemma ElderIsEldest(now: Time)
    ensures IsPodReady(ELDER) && STAYING.key != ELDER.key && ELDER.uid != "" && WORLD.home(ELDER.uid) == ELDER.key && Matches(Web(NUMBER), ELDER)
    ensures Eldest([STAYING, ELDER], 0, now) == Some(ELDER) && Matches(Web(NUMBER), STAYING)
  {
    assert "e"[0] != "b"[0];
    assert [STAYING, ELDER][1..] == [ELDER] && [ELDER][1..] == [];
  }

  lemma TwoPodListing(svc: Service, p: Pod, q: Pod, store: Store)
    requires store.pods == map[p.key := p, q.key := q] && p.key != q.key && Matches(svc, p) && Matches(svc, q)
    ensures IsListing([p, q], store, svc)
  {
    hide Matches;
  }

  lemma MorePods(store: Store, after: Store, key: NamespacedName)
    requires StoreOf(WORLD, store) && PodsOf(WORLD, after.pods) && after.slices == store.slices && after.services == store.services
    requires TargetPod(store, key).Some? && TargetPod(store, key).value.key in after.pods
    requires after.pods[TargetPod(store, key).value.key] == TargetPod(store, key).value
    ensures StoreOf(WORLD, after) && TargetPod(after, key) == TargetPod(store, key)
  {
    hide LeaderServiceName, Source;
  }

  lemma WithElderIsWellFormed()
    requires NamesAreValid()
    ensures StoreOf(WORLD, WithElder()) && TargetPod(WithElder(), LEADER) == Some(STAYING) && LEADER in WithElder().slices
    ensures IsListing([STAYING, ELDER], WithElder(), Web(NUMBER))
  {
    hide LeaderServiceName, OnePod, STAYING, ELDER, IsPodReady, Healthy, StoreOf, TargetPod, Matches, Plain, Source, Sticky, MinReadyDuration, Eldest;
    WebIsPlain(NUMBER);
    StayingIsAtHome();
    ElderIsEldest(0);
    OnePodParts(Web(NUMBER), Some(STAYING));
    OnePodIsWellFormed(Web(NUMBER), Some(STAYING));
    TwoPodListing(Web(NUMBER), STAYING, ELDER, WithElder());
    MorePods(OnePod(Web(NUMBER), Some(STAYING)), WithElder(), LEADER);
  }

  /** The read for stickiness fails, and traffic goes from the healthy leader to the older, terminating pod. */
  lemma FailedStickyReadDropsHealthyLeader(now: Time)
    requires NamesAreValid()
    ensures var d, a := Director(WithElder(), Some(map[]), map[]), Answers(now, {GetSliceSticky}, [STAYING, ELDER], [], [], "fresh");
            && Healthy(STAYING) && !Healthy(ELDER) && IsListing(a.listing, d.store, Web(NUMBER))
            && Choice(d.store, Web(NUMBER), a.listing, now) == Some(STAYING)
            && Choose(d.store, d.leaderCache, Web(NUMBER), a).0 == Some(ELDER)
  {
    hide LeaderServiceName, WithElder, STAYING, IsPodReady, Eldest, TargetPod, StoreOf, IsListing, Plain, Source, Sticky, MinReadyDuration, Choose, Choice;
    WebIsPlain(NUMBER);
    StayingIsAtHome();
    ElderIsEldest(now);
    WithElderIsWellFormed();
    var d, a := Director(WithElder(), Some(map[]), map[]), Answers(now, {GetSliceSticky}, [STAYING, ELDER], [], [], "fresh");
    FailedStickyReadDropsTheLeader(WORLD, d, Web(NUMBER), a);
    assert a.listing[0] == STAYING;
    Unheard.HealthyTargetIsChosen(WORLD, WithElder(), Web(NUMBER), a.listing, now, STAYING);
  }

  // ---------- A younger pod would serve ----------

  const NAMED := Named("http")

  /** Younger than `b`, but the only pod that declares the named port. */
  const SERVING := PodNamed("s", 5, None).(containers := [[ContainerPort("http", 8080)]])

  /** The slice has no target. */
  function WithYounger(): Store {
    OnePod(Web(NAMED), None).(pods := map[STAYING.key := STAYING, SERVING.key := SERVING])
  }

  lemma ServingIsYounger(now: Time)
    ensures IsPodReady(SERVING) && STAYING.key != SERVING.key && SERVING.uid != "" && WORLD.home(SERVING.uid) == SERVING.key
    ensures Matches(Web(NAMED), SERVING) && Matches(Web(NAMED), STAYING) && Resolvable(Port(NAMED), Some(SERVING))
    ensures Eldest([STAYING, SERVING], 0, now) == Some(STAYING)
  {
    assert "s"[0] != "b"[0];
    assert [STAYING, SERVING][1..] == [SERVING] && [SERVING][1..] == [];
    ResolutionIsAllOrNothing(Port(NAMED), Some(SERVING));
    assert forall p :: p in Port(NAMED) ==> p == Port(NAMED)[0];
    assert FirstNamed(SERVING.containers, "http") == Some(8080);
  }

  lemma OtherPods(store: Store, after: Store, key: NamespacedName)
    requires StoreOf(WORLD, store) && PodsOf(WORLD, after.pods) && after.slices == store.slices && after.services == store.services
    ensures StoreOf(WORLD, after)
  {
    hide LeaderServiceName, Source, SingleEndpoint;
  }

  lemma WithYoungerIsWellFormed()
    requires NamesAreValid()
    ensures StoreOf(WORLD, WithYounger()) && Quiescence.Targetless(WORLD, WithYounger(), WEB)
    ensures IsListing([STAYING, SERVING], WithYounger(), Web(NAMED))
    ensures WithYounger().services == map[WEB := Web(NAMED)]
  {
    hide LeaderServiceName, OnePod, STAYING, SERVING, IsPodReady, Healthy, StoreOf, Target, SingleEndpoint, Matches, Plain, Source, Sticky,
      MinReadyDuration, Eldest, Resolvable;
    WebIsPlain(NAMED);
    StayingIsAtHome();
    ServingIsYounger(0);
    OnePodParts(Web(NAMED), None);
    OnePodSlice(Web(NAMED), None);
    OnePodIsWellFormed(Web(NAMED), None);
    TwoPodListing(Web(NAMED), STAYING, SERVING, WithYounger());
    OtherPods(OnePod(Web(NAMED), None), WithYounger(), LEADER);
  }

  lemma WithYoungerEldest()
    requires NamesAreValid()
    ensures Quiescence.EldestIs(WithYounger(), Web(NAMED), Some(STAYING))
  {
    hide LeaderServiceName, WithYounger, STAYING, SERVING, IsPodReady, Eldest, MinReadyDuration, Plain, Source, Sticky, Resolvable, IsListing;
    WithYoungerIsWellFormed();
    WebIsPlain(NAMED);
    ServingIsYounger(0);
    forall listing, now | IsListing(listing, WithYounger(), Web(NAMED)) ensures Eldest(listing, MinReadyDuration(Web(NAMED)), now) == Some(STAYING) {
      EldestOfListings(WORLD, WithYounger(), Web(NAMED), listing, [STAYING, SERVING], 0, now, 0);
    }
  }

  /** However often the source is reconciled, it wakes itself again, though `s` is Ready and has the port. */
  lemma YoungerPodNeverServes(attempts: seq<Answers>)
    requires NamesAreValid() && Quiescence.CleanSequence(WORLD, Director(WithYounger(), Some(map[]), map[]), WEB, attempts)
    ensures Quiescence.WakensThroughout(Director(WithYounger(), Some(map[]), map[]), WEB, attempts)
    ensures IsPodReady(SERVING) && Matches(Web(NAMED), SERVING) && Resolvable(Port(NAMED), Some(SERVING))
  {
    hide LeaderServiceName, WithYounger, STAYING, SERVING, IsPodReady, Eldest, Resolvable, Quiescence.Targetless, Quiescence.EldestIs,
      Quiescence.CleanSequence, Quiescence.WakensThroughout;
    WithYoungerIsWellFormed();
    WithYoungerEldest();
    ServingIsYounger(0);
    StayingHasNoContainers();
    PortResolvesIffNumber(NAMED, Some(STAYING));
    Quiescence.TargetlessWakensThroughout(WORLD, Director(WithYounger(), Some(map[]), map[]), WEB, attempts, Some(STAYING));
  }

  /** And it can be reconciled. */
  lemma YoungerPodCanBeTried()
    requires NamesAreValid()
    ensures PlainReconcile(WORLD, Director(WithYounger(), Some(map[]), map[]), WEB, Answers(0, {}, [STAYING, SERVING], [], [], "fresh"))
  {
    hide LeaderServiceName, WithYounger, STAYING, SERVING, StoreOf, IsListing, Plain, Enabled, Target;
    WithYoungerIsWellFormed();
    LeaderNamesAreDistinct();
    WebIsPlain(NAMED);
    NotLabelled(NAMED);
  }

  // ---------- A loss that flap damping overlooks ----------

  /** Pod `b` has been Ready for ten seconds, and the damped source waits in the queue. */
  function Queued(): Interleaving.System {
    Interleaving.System(OnePod(DAMPED, None), Some(map[]), map[], {WEB}, map[], multiset{}, {})
  }

  function TenSecondsOn(): Answers {
    Answers(TEN_SECONDS + 1, {}, [STAYING], [], [], "fresh")
  }

  lemma DampedWaits()
    requires NamesAreValid() && ParseDuration("10s") == Some(TEN_SECONDS)
    ensures SharedSlices.Waiting(Queued(), WEB) && SharedSlices.WillChoose(Queued(), WEB, [STAYING], TenSecondsOn()) == Some(STAYING)
    ensures Resolvable(DAMPED.ports, Some(STAYING)) && Queued().store.services[WEB] == DAMPED
  {
    hide LeaderServiceName, OnePod, STAYING, DAMPED, StoreOf, IsListing, IsPodReady, Healthy, MinReadyDuration, Choose, Choice, TargetPod, Matches, Target,
      FlapDamping.Overtaken, FlapDamping.Held, Interleaving.BodyFor, Resolvable, Source;
    DampedIsDamped();
    DampedIsSource();
    DampedStore();
    DampedChoices();
    OnePodParts(DAMPED, None);
    NumberResolves(8080, Some(STAYING));
    assert WORLD.leader(WEB) == LEADER && LEADER != WEB by { assert "web" + "-leader" == "web-leader" && |"web-leader"| != |"web"|; }
    var d := Director(OnePod(DAMPED, None), Some(map[]), map[]);
    WellFormedSlices(d.store);
    ChooseIsChoice(WORLD, d, DAMPED, TenSecondsOn());
  }

  lemma WellFormedSlices(store: Store)
    requires StoreOf(WORLD, store)
    ensures SlicesOf(WORLD, store.slices) && PodsOf(WORLD, store.pods) && ServicesOf(WORLD, store.services)
    ensures forall k :: k in store.services ==> store.services[k].key == k
    ensures forall k :: k in store.slices ==> store.slices[k].key == k
  {
  }

  lemma DampedIsSource()
    ensures Source(DAMPED) && |DAMPED.ports| > 0
  {
    assert ANNOTATION_ENABLED[12] == 'e' && ANNOTATION_MIN_READY[12] == 'm';
  }

  lemma DampedIsTargetless()
    ensures Target(OnePod(DAMPED, None).slices[LEADER]).None?
    ensures Provenance.AllSourced(Queued())
  {
    hide SliceLabels, STAYING, DAMPED, RoutedPorts, Resolvable;
    ResolvedPortsOfRouted(DAMPED, None);
  }

  /** Listed as Ready for ten seconds, then not Ready, then leader: all at one instant. */
  lemma LostPodLeadsAtOnce()
    requires NamesAreValid() && ParseDuration("10s") == Some(TEN_SECONDS)
    ensures var acts := OverlookedLoss.WithLoss(WEB, [STAYING], STAYING, TenSecondsOn());
            && Provenance.AllowedRun(WORLD, Queued(), acts)
            && var moments := OverlookedLoss.RunMoments(WORLD, Queued(), acts, TEN_SECONDS + 1);
               && FlapDamping.DampedRun(WORLD, moments, acts, WEB, TEN_SECONDS)
               && FlapDamping.Acquires(WORLD, moments, acts, 8, WEB, STAYING.uid) && FlapDamping.NotReady(WORLD, moments[7], STAYING.uid)
               && moments[8].time - moments[7].time == 0
  {
    hide LeaderServiceName, OnePod, STAYING, DAMPED, StoreOf, IsListing, Healthy, IsPodReady, MinReadyDuration, TargetPod, Matches, Target,
      FlapDamping.DampedRun, FlapDamping.Acquires, FlapDamping.NotReady, OverlookedLoss.WithLoss, OverlookedLoss.RunMoments, Provenance.AllowedRun,
      Provenance.AllSourced, SharedSlices.Waiting, SharedSlices.WillChoose, Resolvable, Interleaving.BodyFor;
    DampedIsDamped();
    DampedStore();
    DampedWaits();
    DampedIsTargetless();
    StayingIsAtHome();
    LeaderNamesAreDistinct();
    OnePodParts(DAMPED, None);
    WellFormedSlices(Queued().store);
    assert [STAYING][0] == STAYING;
    assert WORLD.leader(WEB) == LEADER by { assert "web" + "-leader" == "web-leader"; }
    OverlookedLoss.LossIsOverlooked(WORLD, Queued(), WEB, [STAYING], STAYING, TenSecondsOn(), TEN_SECONDS);
  }
}
