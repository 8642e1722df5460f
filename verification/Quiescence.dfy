/**
 The director watches what it writes itself. In a cluster where nothing else changes and the
 ports of every choice resolve, its own events still die out: each handled request or delivered
 event brings the queue closer to empty, by a bound fixed at the start.
 */
module Quiescence {
  import opened Wrappers
  import opened Kube
  import opened Selection
  import opened Routing
  import opened OptedIn
  import opened Reconciling
  import opened Runs
  import opened SteadyState
  import opened Watches

  datatype Controller = Controller(director: Director, queue: set<NamespacedName>, events: seq<Write>)

  datatype Turn = Handle(request: NamespacedName, answers: Answers) | Deliver

  /** Handling takes a request off the queue, and puts it back on an error; delivery queues what an event wakes. */
  function Take(c: Controller, t: Turn): Controller
    requires t.Deliver? ==> c.events != []
  {
    match t
    case Deliver => c.(queue := c.queue + Wakes(c.events[0]), events := c.events[1..])
    case Handle(request, a) =>
      var r := Reconcile(c.director, request, a);
      Controller(r.director, c.queue - {request} + (if r.ok then {} else {request}), c.events + r.writes)
  }

  ghost predicate Legal(w: World, c: Controller, t: Turn) {
    match t
    case Deliver => c.events != []
    case Handle(request, a) => request in c.queue && a.failing == {} && Admissible(w, c.director, Reconciles(request, a))
  }

  // ---------- A frozen cluster ----------

  /** However the pods are listed, the ports of the choice resolve. */
  ghost predicate ChoiceResolves(store: Store, svc: Service) {
    forall listing, now :: IsListing(listing, store, svc) ==> Resolvable(svc.ports, Choice(store, svc, listing, now))
  }

  /**
   Not a source: enabled without selector, as leader Services are, or not opted in, in which case
   neither its own name nor the leader name it would have is in use for leader Services.
   */
  ghost predicate Bystander(w: World, services: map<NamespacedName, Service>, sources: set<NamespacedName>, k: NamespacedName)
    requires k in services
  {
    if Enabled(services[k]) then |services[k].selector| == 0
    else LeaderKey(services[k]) == w.leader(k) && w.leader(k) !in services && forall s :: s in sources ==> w.leader(s) != k
  }

  /** The Services are the sources in `sources` and bystanders. */
  ghost predicate Frozen(w: World, d: Director, sources: set<NamespacedName>) {
    && StoreOf(w, d.store) && LeaderNamesDistinct(w) && CacheAgrees(w, d)
    && sources <= d.store.services.Keys
    && (forall k :: k in d.store.services ==> ValidNames(k))
    && (forall k :: k in sources ==> w.leader(k) !in sources && Plain(d.store.services[k]) && ChoiceResolves(d.store, d.store.services[k]))
    && (forall k :: k in d.store.services && k !in sources ==> Bystander(w, d.store.services, sources, k))
    && (forall k, source :: k in d.store.services && LabelledFor(d.store.services[k], source) ==> source in sources)
  }

  // ---------- Steady sources ----------

  ghost predicate SteadyFor(store: Store, svc: Service, choice: Option<Pod>) {
    && Settled(store, svc, choice) && Resolvable(svc.ports, choice)
    && forall listing, now :: IsListing(listing, store, svc) ==> Choice(store, svc, listing, now) == choice
  }

  ghost predicate Steady(store: Store, svc: Service) {
    exists choice :: SteadyFor(store, svc, choice)
  }

  ghost function Unsteady(d: Director, sources: set<NamespacedName>): set<NamespacedName>
    requires sources <= d.store.services.Keys
  {
    set k | k in sources && !Steady(d.store, d.store.services[k])
  }

  /** A choice looks at the pods and at its own slice. */
  lemma ChoiceIsLocal(store: Store, after: Store, svc: Service, listing: seq<Pod>, now: Time)
    requires after.pods == store.pods
    requires LeaderKey(svc) in store.slices <==> LeaderKey(svc) in after.slices
    requires LeaderKey(svc) in store.slices ==> after.slices[LeaderKey(svc)] == store.slices[LeaderKey(svc)]
    ensures Choice(after, svc, listing, now) == Choice(store, svc, listing, now)
  {
  }

  lemma OthersAreUntouched(store: Store, after: Store, key: NamespacedName, svc: Service)
    requires OnlyAt(key, store, after) && LeaderKey(svc) != key
    ensures ChoiceResolves(store, svc) ==> ChoiceResolves(after, svc)
    ensures Steady(store, svc) ==> Steady(after, svc)
  {
    hide LeaderServiceName, Choice, Resolvable, Carries, UpdatedLeaderService;
    forall listing, now ensures Choice(after, svc, listing, now) == Choice(store, svc, listing, now) {
      ChoiceIsLocal(store, after, svc, listing, now);
    }
    assert forall listing :: IsListing(listing, after, svc) <==> IsListing(listing, store, svc);
    if Steady(store, svc) {
      var choice :| SteadyFor(store, svc, choice);
      assert SteadyFor(after, svc, choice);
    }
  }

  lemma FrozenIsPlain(w: World, d: Director, sources: set<NamespacedName>, k: NamespacedName, a: Answers)
    requires Frozen(w, d, sources) && k in sources && a.failing == {} && Admissible(w, d, Reconciles(k, a))
    ensures PlainReconcile(w, d, k, a)
    ensures Resolvable(d.store.services[k].ports, Choice(d.store, d.store.services[k], a.listing, a.now))
  {
  }

  /** Reconciling a source of a frozen cluster makes it steady, with at most two writes, and none if it was. */
  lemma SourceBecomesSteady(w: World, d: Director, sources: set<NamespacedName>, k: NamespacedName, a: Answers)
    requires Frozen(w, d, sources) && k in sources && a.failing == {} && Admissible(w, d, Reconciles(k, a))
    ensures var r, svc := Reconcile(d, k, a), d.store.services[k];
            && r.ok && |r.writes| <= 2 && (Steady(d.store, svc) ==> r.writes == [])
            && OnlyAt(w.leader(k), d.store, r.director.store)
            && StoreOf(w, r.director.store) && CacheAgrees(w, r.director)
            && k in r.director.store.services && r.director.store.services[k] == svc
            && Steady(r.director.store, svc) && ChoiceResolves(r.director.store, svc)
  {
    hide LeaderServiceName, Reconcile, Route, Choice, Resolvable, Settled, MinReadyDuration, TargetsChoice, WriteSlice, WriteLeaderService, Frozen;
    FrozenIsPlain(w, d, sources, k, a);
    var svc := d.store.services[k];
    PlainReconcileSettles(w, d, k, a);
    var choice := Choice(d.store, svc, a.listing, a.now);
    RouteWritesServiceThenSlice(d.store, svc, choice, a);
    var after := Reconcile(d, k, a).director.store;
    forall listing, now | IsListing(listing, after, svc) ensures Choice(after, svc, listing, now) == choice {
      ListingStays(d.store, after, svc, listing);
      ChoiceRepeats(w, d.store, after, svc, a.listing, listing, a.now, now);
    }
    assert SteadyFor(after, svc, choice);
    if Steady(d.store, svc) {
      var c :| SteadyFor(d.store, svc, c);
      assert c == choice;
      RoutingAgainWritesNothingIffResolvable(d.store, svc, choice, a);
    }
  }

  // ---------- The leader Services are inert ----------

  /** The opt-in annotation is copied from the source, so a leader Service is enabled too; having no selector keeps it from spawning. */
  lemma NewLeaderServiceIsInert(svc: Service, leader: Option<Pod>, ports: seq<ServicePort>, now: Time, uid: UID, source: NamespacedName)
    requires Enabled(svc)
    ensures var n := NewLeaderService(svc, leader, ports, now, uid);
            Enabled(n) && |n.selector| == 0 && (LabelledFor(n, source) <==> source == svc.key)
  {
    assert ANNOTATION_ENABLED !in GITOPS_ANNOTATIONS;
    if LabelledFor(NewLeaderService(svc, leader, ports, now, uid), source) {
      assert source == NamespacedName(source.namespace, source.name);
    }
  }

  lemma UpdatedLeaderServiceIsInert(stored: Service, svc: Service, leader: Option<Pod>, ports: seq<ServicePort>, now: Time)
    ensures var u := UpdatedLeaderService(stored, svc, leader, ports, now);
            && (Enabled(stored) ==> Enabled(u)) && |u.selector| == 0
            && u.labels == stored.labels && u.key == stored.key
  {
  }

  /** What routing leaves under the leader's name: an inert Service. */
  ghost predicate InertAfter(before: map<NamespacedName, Service>, after: map<NamespacedName, Service>, svc: Service) {
    var key := LeaderKey(svc);
    && (key in after && (key in before ==> Enabled(before[key])) ==> Enabled(after[key]))
    && (key in after && key !in before ==> forall s :: LabelledFor(after[key], s) <==> s == svc.key)
    && (key in after && key in before ==> forall s :: LabelledFor(after[key], s) <==> LabelledFor(before[key], s))
  }

  lemma WriteLeavesInert(store: Store, svc: Service, leader: Option<Pod>, ports: seq<ServicePort>, a: Answers)
    requires forall k :: k in store.services ==> store.services[k].key == k
    requires Enabled(svc)
    ensures InertAfter(store.services, WriteLeaderService(store, svc, leader, ports, a).store.services, svc)
  {
    hide LeaderServiceName, Enabled, LabelledFor, NewLeaderService, UpdatedLeaderService;
    var key := LeaderKey(svc);
    if key in store.services {
      UpdatedLeaderServiceIsInert(store.services[key], svc, leader, ports, a.now);
      LabelledIsLabels(store.services[key], UpdatedLeaderService(store.services[key], svc, leader, ports, a.now));
    } else {
      NewLeaderServiceIsInert(svc, leader, ports, a.now, a.freshUid, svc.key);
      forall s ensures LabelledFor(NewLeaderService(svc, leader, ports, a.now, a.freshUid), s) <==> s == svc.key {
        NewLeaderServiceIsInert(svc, leader, ports, a.now, a.freshUid, s);
      }
    }
  }

  lemma RouteLeavesInert(store: Store, svc: Service, chosen: Option<Pod>, a: Answers)
    requires forall k :: k in store.services ==> store.services[k].key == k
    requires Enabled(svc)
    ensures InertAfter(store.services, Route(store, svc, chosen, a).store.services, svc)
  {
    hide LeaderServiceName, WriteLeaderService, LeaderBody, SliceLabels, Resolvable, AllNumbered, InertAfter, Enabled;
    var dropped := if Resolvable(svc.ports, chosen) then Outcome(store, [], true) else DropSlice(store, LeaderKey(svc), a);
    WriteLeavesInert(dropped.store, svc, Routed(svc, chosen), RoutedPorts(svc, chosen), a);
  }

  lemma LabelledIsLabels(one: Service, other: Service)
    requires one.labels == other.labels && one.key == other.key
    ensures forall s :: LabelledFor(one, s) == LabelledFor(other, s)
  {
  }

  lemma LeaderNameIsValid(svc: Service)
    requires ValidNames(svc.key)
    ensures ValidNames(LeaderKey(svc))
  {
  }

  // ---------- Turns ----------

  /** Handling a request that is no source writes nothing. */
  lemma OthersWriteNothing(w: World, d: Director, sources: set<NamespacedName>, k: NamespacedName, a: Answers)
    requires Frozen(w, d, sources) && k !in sources && a.failing == {} && Admissible(w, d, Reconciles(k, a))
    ensures var r := Reconcile(d, k, a);
            r.ok && r.writes == [] && r.director.store == d.store && r.director.leaderCache == d.leaderCache
  {
    hide LeaderServiceName, Plain, ChoiceResolves, CacheAgrees, StoreOf, LabelledFor, Enabled, UpdateFor, Route, Choose, Refresh;
  }

  /** Bystanders stay bystanders when a source's leader Service is written. */
  lemma BystandersStay(w: World, before: Store, after: Store, sources: set<NamespacedName>, svc: Service, j: NamespacedName)
    requires LeaderNamesDistinct(w) && LeaderKey(svc) == w.leader(svc.key) && svc.key in sources
    requires forall i :: i in before.services && i !in sources ==> Bystander(w, before.services, sources, i)
    requires OnlyAt(w.leader(svc.key), before, after) && SelectorLess(w.leader(svc.key), before, after)
    requires InertAfter(before.services, after.services, svc)
    requires j in after.services && j !in sources
    ensures Bystander(w, after.services, sources, j)
  {
    hide LeaderServiceName, Enabled, LabelledFor;
    if j in before.services { assert Bystander(w, before.services, sources, j); }
  }

  /** After a source was routed, the Services are still the sources and bystanders. */
  lemma ServicesStayFrozen(w: World, d: Director, sources: set<NamespacedName>, k: NamespacedName, a: Answers)
    requires Frozen(w, d, sources) && k in sources && a.failing == {} && Admissible(w, d, Reconciles(k, a))
    ensures var after := Reconcile(d, k, a).director.store.services;
            && (forall j :: j in sources ==> j in after && after[j] == d.store.services[j])
            && (forall j :: j in after ==> ValidNames(j) && (j !in sources ==> Bystander(w, after, sources, j)))
            && (forall j, s :: j in after && LabelledFor(after[j], s) ==> s in sources)
  {
    hide LeaderServiceName, Reconcile, Route, MinReadyDuration, ChoiceResolves, CacheAgrees, Choose, LabelledFor, Enabled, Bystander, Plain;
    FrozenIsPlain(w, d, sources, k, a);
    var svc := d.store.services[k];
    ReconcileRoutesOrCleans(d, k, a);
    RouteWrites(d.store, svc, Chosen(d, svc, a).0, a);
    RouteLeavesInert(d.store, svc, Chosen(d, svc, a).0, a);
    LeaderNameIsValid(svc);
    var after := Reconcile(d, k, a).director.store;
    forall j | j in after.services && j !in sources ensures Bystander(w, after.services, sources, j) {
      BystandersStay(w, d.store, after, sources, svc, j);
    }
  }

  lemma SourceKeepsItsLeaderName(w: World, d: Director, sources: set<NamespacedName>, j: NamespacedName)
    requires Frozen(w, d, sources) && j in sources
    ensures LeaderKey(d.store.services[j]) == w.leader(j)
  {
  }

  /** The cluster stays frozen, and no steady source becomes unsteady. */
  lemma HandlingKeepsFrozen(w: World, d: Director, sources: set<NamespacedName>, k: NamespacedName, a: Answers)
    requires Frozen(w, d, sources) && a.failing == {} && Admissible(w, d, Reconciles(k, a))
    ensures var e := Reconcile(d, k, a).director;
            Frozen(w, e, sources) && Unsteady(e, sources) == Unsteady(d, sources) - {k}
  {
    hide LeaderServiceName, Reconcile, Plain, ChoiceResolves, Steady, StoreOf, Enabled, LabelledFor, Admissible, Bystander;
    var e := Reconcile(d, k, a).director;
    if k !in sources {
      OthersWriteNothing(w, d, sources, k, a);
    } else {
      SourceBecomesSteady(w, d, sources, k, a);
      ServicesStayFrozen(w, d, sources, k, a);
      forall j | j in sources && j != k
        ensures ChoiceResolves(e.store, d.store.services[j]) && (Steady(d.store, d.store.services[j]) <==> Steady(e.store, d.store.services[j])) {
        SourceKeepsItsLeaderName(w, d, sources, j);
        OthersAreUntouched(d.store, e.store, w.leader(k), d.store.services[j]);
        OthersAreUntouched(e.store, d.store, w.leader(k), d.store.services[j]);
      }
    }
  }

  function Measure(c: Controller, unsteady: nat): nat {
    5 * unsteady + 2 * |c.events| + |c.queue|
  }

  /** Every turn brings the controller closer to rest. */
  lemma TurnsDecrease(w: World, c: Controller, t: Turn, sources: set<NamespacedName>)
    requires Frozen(w, c.director, sources) && Legal(w, c, t)
    ensures Frozen(w, Take(c, t).director, sources)
    ensures Measure(Take(c, t), |Unsteady(Take(c, t).director, sources)|) < Measure(c, |Unsteady(c.director, sources)|)
  {
    hide LeaderServiceName, Reconcile, Frozen, Steady, Admissible, Wakes;
    match t
    case Deliver =>
      WakesOne(c.events[0]);
      SizeOfUnion(c.queue, Wakes(c.events[0]));
    case Handle(k, a) =>
      HandlingKeepsFrozen(w, c.director, sources, k, a);
      if k in sources {
        SourceBecomesSteady(w, c.director, sources, k, a);
        FrozenIsPlain(w, c.director, sources, k, a);
      } else {
        OthersWriteNothing(w, c.director, sources, k, a);
      }
      assert |c.queue - {k}| == |c.queue| - 1;
  }

  lemma WakesOne(e: Write)
    ensures |Wakes(e)| <= 1
  {
  }

  lemma SizeOfUnion<T>(a: set<T>, b: set<T>)
    ensures |a + b| <= |a| + |b|
  {
    assert a + b == a + (b - a);
    assert |b - a| <= |b| by { assert b == (b - a) + (b * a); }
  }

  ghost predicate LegalTurns(w: World, c: Controller, turns: seq<Turn>)
    decreases |turns|
  {
    turns != [] ==> Legal(w, c, turns[0]) && LegalTurns(w, Take(c, turns[0]), turns[1..])
  }

  /**
   The queue drains: in a frozen cluster no run of the controller is longer than its measure at
   the start, so the events it causes itself come to an end.
   */
  lemma {:induction false} SelfTriggeredEventsDieOut(w: World, c: Controller, turns: seq<Turn>, sources: set<NamespacedName>)
    requires Frozen(w, c.director, sources) && LegalTurns(w, c, turns)
    ensures |turns| <= Measure(c, |Unsteady(c.director, sources)|)
    decreases |turns|
  {
    if turns != [] {
      TurnsDecrease(w, c, turns[0], sources);
      SelfTriggeredEventsDieOut(w, Take(c, turns[0]), turns[1..], sources);
    }
  }

  ghost function AfterTurns(w: World, c: Controller, turns: seq<Turn>): Controller
    requires LegalTurns(w, c, turns)
    decreases |turns|
  {
    if turns == [] then c else AfterTurns(w, Take(c, turns[0]), turns[1..])
  }

  predicate Resting(c: Controller) {
    c.queue == {} && c.events == []
  }

  /** A controller that is not at rest always has a turn to take. */
  lemma NotRestingCanMove(w: World, c: Controller, sources: set<NamespacedName>, now: Time) returns (t: Turn)
    requires Frozen(w, c.director, sources) && !Resting(c)
    ensures Legal(w, c, t)
  {
    hide Admissible;
    t := Deliver;
    if c.events == [] {
      var k :| k in c.queue;
      var a := AnswersExist(w, c.director, k, now);
      t := Handle(k, a);
    }
  }

  /**
   The queue drains: from any state of a frozen cluster some run ends at rest. As no run is longer
   than the measure and only a resting controller cannot move, every run does that is continued.
   */
  lemma {:induction false} QueueDrains(w: World, c: Controller, sources: set<NamespacedName>, now: Time) returns (turns: seq<Turn>)
    requires Frozen(w, c.director, sources)
    ensures LegalTurns(w, c, turns) && Resting(AfterTurns(w, c, turns)) && |turns| <= Measure(c, |Unsteady(c.director, sources)|)
    decreases Measure(c, |Unsteady(c.director, sources)|)
  {
    hide Frozen, Legal, Take, Measure;
    turns := [];
    if !Resting(c) {
      var t := NotRestingCanMove(w, c, sources, now);
      TurnIsPossible(w, c, t);
      TurnsDecrease(w, c, t, sources);
      var rest := QueueDrains(w, Take(c, t), sources, now);
      turns := [t] + rest;
      assert turns[1..] == rest;
    }
    FrozenHasSources(w, c.director, sources);
    SelfTriggeredEventsDieOut(w, c, turns, sources);
  }

  lemma {:induction false} FrozenThroughout(w: World, c: Controller, turns: seq<Turn>, sources: set<NamespacedName>)
    requires Frozen(w, c.director, sources) && LegalTurns(w, c, turns)
    ensures Frozen(w, AfterTurns(w, c, turns).director, sources)
    decreases |turns|
  {
    hide Legal, Frozen, Take;
    if turns != [] {
      TurnIsPossible(w, c, turns[0]);
      TurnsDecrease(w, c, turns[0], sources);
      FrozenThroughout(w, Take(c, turns[0]), turns[1..], sources);
    }
  }

  /** A run that cannot be continued has ended at rest. */
  lemma StuckMeansResting(w: World, c: Controller, turns: seq<Turn>, sources: set<NamespacedName>, now: Time)
    requires Frozen(w, c.director, sources) && LegalTurns(w, c, turns)
    requires forall t :: !Legal(w, AfterTurns(w, c, turns), t)
    ensures Resting(AfterTurns(w, c, turns))
  {
    hide Legal, Frozen, Take, Resting, LegalTurns, AfterTurns;
    FrozenThroughout(w, c, turns, sources);
    if !Resting(AfterTurns(w, c, turns)) { var t := NotRestingCanMove(w, AfterTurns(w, c, turns), sources, now); }
  }

  lemma TurnIsPossible(w: World, c: Controller, t: Turn)
    requires Legal(w, c, t)
    ensures t.Deliver? ==> c.events != []
  {
    hide Admissible;
  }

  lemma FrozenHasSources(w: World, d: Director, sources: set<NamespacedName>)
    requires Frozen(w, d, sources)
    ensures sources <= d.store.services.Keys
  {
  }

  // ---------- Where they do not die out ----------

  ghost predicate Wakens(d: Director, k: NamespacedName, a: Answers) {
    exists e :: e in Reconcile(d, k, a).writes && k in Wakes(e)
  }

  /** Routing to a pod whose ports do not resolve creates the slice anew, and that wakes the source again. */
  lemma UnresolvedRouteRecreates(store: Store, svc: Service, chosen: Option<Pod>, a: Answers)
    requires a.failing == {} && Plain(svc) && !Resolvable(svc.ports, chosen)
    requires forall k :: k in store.slices ==> store.slices[k].key == k
    ensures var o := Route(store, svc, chosen, a);
            && LeaderKey(svc) in o.store.slices && svc.key in SliceRequests(o.store.slices[LeaderKey(svc)])
            && PutSlice(o.store.slices[LeaderKey(svc)]) in o.writes
  {
    hide LeaderServiceName, WriteLeaderService, LeaderBody, SliceLabels, Resolvable, SliceRequests;
    var dropped := DropSlice(store, LeaderKey(svc), a);
    var served := WriteLeaderService(dropped.store, svc, None, [], a);
    assert served.ok && served.store.slices == dropped.store.slices by { CleanServiceWrite(dropped.store, svc, None, [], a); }
    var o := Route(store, svc, chosen, a);
    assert o.writes[|o.writes| - 1] == PutSlice(o.store.slices[LeaderKey(svc)]);
    NewSliceNamesItsSource(svc, SliceOwnerUid(served.store, LeaderKey(svc), a), LeaderBody(None, []));
  }

  lemma CleanServiceWrite(store: Store, svc: Service, leader: Option<Pod>, ports: seq<ServicePort>, a: Answers)
    requires a.failing == {}
    ensures var o := WriteLeaderService(store, svc, leader, ports, a); o.ok && o.store.slices == store.slices
  {
    hide LeaderServiceName, NewLeaderService, UpdatedLeaderService;
  }

  /** The slice of the source routes to no pod. */
  ghost predicate Targetless(w: World, store: Store, k: NamespacedName) {
    w.leader(k) in store.slices && Target(store.slices[w.leader(k)]).None?
  }

  /** A reconcile whose choice does not resolve wakes its source, and leaves a slice without target. */
  lemma UnresolvedReconcileWakens(w: World, d: Director, k: NamespacedName, a: Answers)
    requires PlainReconcile(w, d, k, a) && !Resolvable(d.store.services[k].ports, Choice(d.store, d.store.services[k], a.listing, a.now))
    ensures Wakens(d, k, a) && Targetless(w, Reconcile(d, k, a).director.store, k)
  {
    hide LeaderServiceName, Reconcile, Route, Choice, SliceRequests, MinReadyDuration, Resolvable, TargetsChoice, LeaderBody;
    var svc := d.store.services[k];
    var choice := Choice(d.store, svc, a.listing, a.now);
    PlainReconcileSettles(w, d, k, a);
    ReconcileRoutesOrCleans(d, k, a);
    ChosenIsChoice(w, d, svc, a);
    UnresolvedRouteRecreates(d.store, svc, choice, a);
    BodyOfNoneHasNoTarget(RoutedPorts(svc, choice));
  }

  lemma BodyOfNoneHasNoTarget(ports: seq<ServicePort>)
    requires AllNumbered(ports)
    ensures LeaderBody(None, ports).endpoints == [LeaderEndpoint(None)] && LeaderEndpoint(None).targetRef.None?
  {
  }

  /** Next to a slice without target the eldest Ready pod is chosen. */
  lemma TargetlessChoosesEldest(w: World, store: Store, svc: Service, listing: seq<Pod>, now: Time)
    requires StoreOf(w, store) && IsListing(listing, store, svc) && Targetless(w, store, svc.key) && LeaderKey(svc) == w.leader(svc.key)
    ensures Choice(store, svc, listing, now) == Eldest(listing, MinReadyDuration(svc), now)
  {
    hide LeaderServiceName, MinReadyDuration, Eldest, StickyLeader, IsPodReady;
    StickyHitIsTarget(w, store, svc, listing);
  }

  /** Successive reconciles of one source, in which nothing fails and nothing else happens. */
  ghost predicate CleanSequence(w: World, d: Director, k: NamespacedName, attempts: seq<Answers>)
    decreases |attempts|
  {
    attempts != [] ==> PlainReconcile(w, d, k, attempts[0]) && CleanSequence(w, Reconcile(d, k, attempts[0]).director, k, attempts[1..])
  }

  /** Each of them wakes the source again. */
  ghost predicate WakensThroughout(d: Director, k: NamespacedName, attempts: seq<Answers>)
    decreases |attempts|
  {
    attempts != [] ==> Wakens(d, k, attempts[0]) && WakensThroughout(Reconcile(d, k, attempts[0]).director, k, attempts[1..])
  }

  /** The eldest Ready pod of the source, in whatever order and at whatever time it is looked for. */
  ghost predicate EldestIs(store: Store, svc: Service, eldest: Option<Pod>) {
    forall listing, now :: IsListing(listing, store, svc) ==> Eldest(listing, MinReadyDuration(svc), now) == eldest
  }

  lemma PlainReconcileKeepsPods(w: World, d: Director, k: NamespacedName, a: Answers)
    requires PlainReconcile(w, d, k, a)
    ensures var e := Reconcile(d, k, a).director.store;
            k in d.store.services && k in e.services && e.services[k] == d.store.services[k] && e.pods == d.store.pods
  {
    hide LeaderServiceName, Reconcile, Choice, Settled, TargetsChoice, MinReadyDuration, Resolvable, StoreOf, CacheAgrees, Route, Carries;
    PlainReconcileSettles(w, d, k, a);
  }

  lemma EldestStays(w: World, d: Director, k: NamespacedName, a: Answers, eldest: Option<Pod>)
    requires PlainReconcile(w, d, k, a) && EldestIs(d.store, d.store.services[k], eldest)
    ensures var e := Reconcile(d, k, a).director;
            k in e.store.services && e.store.services[k] == d.store.services[k] && EldestIs(e.store, d.store.services[k], eldest)
  {
    hide LeaderServiceName, Reconcile, MinReadyDuration, Eldest, PlainReconcile;
    PlainReconcileKeepsPods(w, d, k, a);
    var svc, after := d.store.services[k], Reconcile(d, k, a).director.store;
    forall listing, now | IsListing(listing, after, svc) ensures Eldest(listing, MinReadyDuration(svc), now) == eldest {
      ListingStays(d.store, after, svc, listing);
    }
  }

  lemma {:induction false} TargetlessWakensThroughout(w: World, d: Director, k: NamespacedName, attempts: seq<Answers>, eldest: Option<Pod>)
    requires CleanSequence(w, d, k, attempts) && Targetless(w, d.store, k) && k in d.store.services
    requires EldestIs(d.store, d.store.services[k], eldest) && !Resolvable(d.store.services[k].ports, eldest)
    ensures WakensThroughout(d, k, attempts)
    decreases |attempts|
  {
    hide LeaderServiceName, Reconcile, Choice, Resolvable, Targetless, Wakens, Plain, Eldest, MinReadyDuration;
    if attempts != [] {
      var svc, a := d.store.services[k], attempts[0];
      PlainListing(w, d, k, a);
      TargetlessChoosesEldest(w, d.store, svc, a.listing, a.now);
      UnresolvedReconcileWakens(w, d, k, a);
      EldestStays(w, d, k, a, eldest);
      TargetlessWakensThroughout(w, Reconcile(d, k, a).director, k, attempts[1..], eldest);
    }
  }

  lemma PlainListing(w: World, d: Director, k: NamespacedName, a: Answers)
    requires PlainReconcile(w, d, k, a)
    ensures k in d.store.services
    ensures IsListing(a.listing, d.store, d.store.services[k]) && StoreOf(w, d.store) && MinReadyDuration(d.store.services[k]) <= 0
    ensures d.store.services[k].key == k && LeaderKey(d.store.services[k]) == w.leader(k) && a.failing == {} && Admissible(w, d, Reconciles(k, a))
  {
  }

  lemma EldestIsOne(w: World, d: Director, k: NamespacedName, a: Answers)
    requires PlainReconcile(w, d, k, a)
    ensures var svc := d.store.services[k]; EldestIs(d.store, svc, Eldest(a.listing, MinReadyDuration(svc), a.now))
  {
    hide LeaderServiceName, MinReadyDuration, Eldest, IsListing, PlainReconcile;
    PlainListing(w, d, k, a);
    var svc := d.store.services[k];
    forall listing, now | IsListing(listing, d.store, svc)
      ensures Eldest(listing, MinReadyDuration(svc), now) == Eldest(a.listing, MinReadyDuration(svc), a.now) {
      EldestOfListings(w, d.store, svc, listing, a.listing, MinReadyDuration(svc), now, a.now);
    }
  }

  /** A reconcile after one whose choice resolved writes nothing, so it wakes nobody. */
  lemma ResolvedIsQuiet(w: World, d: Director, k: NamespacedName, a: Answers, b: Answers)
    requires PlainReconcile(w, d, k, a) && PlainReconcile(w, Reconcile(d, k, a).director, k, b)
    requires Resolvable(d.store.services[k].ports, Choice(d.store, d.store.services[k], a.listing, a.now))
    ensures !Wakens(Reconcile(d, k, a).director, k, b)
  {
    hide LeaderServiceName, Reconcile, Choice, Resolvable, PlainReconcile;
    PlainListing(w, Reconcile(d, k, a).director, k, b);
    QuiescentIffPortsResolve(w, d, k, a, b);
  }

  lemma EldestIsGiven(store: Store, svc: Service, eldest: Option<Pod>, listing: seq<Pod>, now: Time)
    requires EldestIs(store, svc, eldest) && IsListing(listing, store, svc)
    ensures Eldest(listing, MinReadyDuration(svc), now) == eldest
  {
  }

  /** Two attempts after a first one that left the slice without target: the second is quiet if the eldest resolves. */
  lemma EldestResolvesQuietly(w: World, d: Director, k: NamespacedName, b: Answers, c: Answers, eldest: Option<Pod>)
    requires PlainReconcile(w, d, k, b) && PlainReconcile(w, Reconcile(d, k, b).director, k, c) && Targetless(w, d.store, k)
    requires EldestIs(d.store, d.store.services[k], eldest) && Resolvable(d.store.services[k].ports, eldest)
    ensures !Wakens(Reconcile(d, k, b).director, k, c)
  {
    hide LeaderServiceName, Reconcile, Choice, Resolvable, Targetless, Wakens, PlainReconcile, Eldest, MinReadyDuration, EldestIs;
    PlainListing(w, d, k, b);
    TargetlessChoosesEldest(w, d.store, d.store.services[k], b.listing, b.now);
    EldestIsGiven(d.store, d.store.services[k], eldest, b.listing, b.now);
    ResolvedIsQuiet(w, d, k, b, c);
  }

  /**
   When self-waking never ends. Of three or more successive reconciles that succeed while nothing
   else changes, all after the first wake the source again exactly if the ports resolve neither for
   the pod chosen first nor for the eldest Ready pod, be there younger pods for which they do.
   */
  lemma UnresolvedSourceWakesItselfForever(w: World, d: Director, k: NamespacedName, attempts: seq<Answers>)
    requires CleanSequence(w, d, k, attempts) && |attempts| >= 3
    ensures var svc, a := d.store.services[k], attempts[0];
            WakensThroughout(Reconcile(d, k, a).director, k, attempts[1..]) <==>
              && !Resolvable(svc.ports, Choice(d.store, svc, a.listing, a.now))
              && !Resolvable(svc.ports, Eldest(a.listing, MinReadyDuration(svc), a.now))
  {
    hide LeaderServiceName, Reconcile, Choice, Resolvable, Targetless, Wakens, PlainReconcile, Eldest, MinReadyDuration, EldestIs;
    var a, b, c := attempts[0], attempts[1], attempts[2];
    PlainListing(w, d, k, a);
    var svc, d1 := d.store.services[k], Reconcile(d, k, a).director;
    assert attempts[1..][0] == b && attempts[1..][1..][0] == c;
    assert CleanSequence(w, d1, k, attempts[1..]) && CleanSequence(w, Reconcile(d1, k, b).director, k, attempts[1..][1..]);
    if Resolvable(svc.ports, Choice(d.store, svc, a.listing, a.now)) {
      ResolvedIsQuiet(w, d, k, a, b);
    } else {
      var eldest := Eldest(a.listing, MinReadyDuration(svc), a.now);
      UnresolvedReconcileWakens(w, d, k, a);
      EldestIsOne(w, d, k, a);
      EldestStays(w, d, k, a, eldest);
      if Resolvable(svc.ports, eldest) {
        EldestResolvesQuietly(w, d1, k, b, c, eldest);
      } else {
        TargetlessWakensThroughout(w, d1, k, attempts[1..], eldest);
      }
    }
  }
}
