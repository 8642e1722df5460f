/**
 Which Services the director writes. The opt-in annotation is copied to every leader Service, so
 the director is asked to reconcile its own products; they have no selector, which is why they
 spawn nothing. Users' Services are safe exactly as long as their names are.
 */
module Confinement {
  import opened Wrappers
  import opened Kube
  import opened OptedIn
  import opened Reconciling
  import opened Runs
  import opened Quiescence

  // ---------- Names that belong to the director ----------

  ghost predicate IsLeaderName(w: World, k: NamespacedName) {
    exists source :: w.leader(source) == k
  }

  /** A Service that stands under a leader name: opted in like its source, without selector, labelled with that source alone. */
  ghost predicate Product(w: World, svc: Service) {
    && Enabled(svc) && |svc.selector| == 0
    && (forall s :: LabelledFor(svc, s) ==> w.leader(s) == svc.key && !IsLeaderName(w, s))
    && (exists s :: LabelledFor(svc, s))
  }

  /** A user's Service: it keeps its derived leader name and does not carry the director's labels. */
  ghost predicate UserMade(w: World, svc: Service) {
    LeaderKey(svc) == w.leader(svc.key) && forall s :: !LabelledFor(svc, s)
  }

  ghost predicate Confined(w: World, services: map<NamespacedName, Service>) {
    forall k :: k in services ==>
      && services[k].key == k
      && if IsLeaderName(w, k) then Product(w, services[k]) else UserMade(w, services[k])
  }

  /** Users neither create nor edit a Service under a leader name; they may delete it. */
  ghost predicate UsersKeepNames(w: World, before: map<NamespacedName, Service>, after: map<NamespacedName, Service>) {
    forall k :: k in after ==>
      if IsLeaderName(w, k) then k in before && after[k] == before[k]
      else after[k].key == k && UserMade(w, after[k])
  }

  /** Whatever fails, and however the director's caches stand. */
  ghost predicate Permitted(w: World, d: Director, step: Step) {
    match step
    case Reconciles(request, a) => IsLabelledListing(a.labelled, d.store, request)
    case Changes(services, _) => UsersKeepNames(w, d.store.services, services)
    case _ => true
  }

  // ---------- One reconcile ----------

  lemma ReconcileWithoutRouting(d: Director, request: NamespacedName, a: Answers)
    requires !Routes(d, request, a)
    ensures var r := Reconcile(d, request, a);
            || (r.writes == [] && r.director.store == d.store)
            || ((request !in d.store.services || !Enabled(d.store.services[request]))
                && r.director.store == Cleanup(d.store, request, a).store && r.writes == Cleanup(d.store, request, a).writes)
  {
    hide Cleanup, Route, Choose, UpdateFor, Refresh, Enabled, ApplyWrites;
  }

  lemma {:induction false} RemoveEachAt(store: Store, services: seq<Service>, failing: set<Call>, key: NamespacedName)
    requires forall s :: s in services ==> s.key == key
    ensures OnlyAt(key, store, RemoveEach(store, services, failing).store)
    ensures services == [] ==> RemoveEach(store, services, failing).writes == []
    decreases |services|
  {
    hide OnlyAt;
    OnlyAtComposes(key, store, store, store);
    if services != [] {
      var next := ApplyWrite(store, DeleteService(services[0]));
      WriteTouches(store, DeleteService(services[0]));
      RemoveEachAt(store, services[1..], failing, key);
      RemoveEachAt(next, services[1..], failing, key);
      OnlyAtComposes(key, store, next, RemoveEach(next, services[1..], failing).store);
    }
  }

  /** Cleanup removes nothing but the leader Service of the request, and never on behalf of a leader Service. */
  lemma CleanupIsConfined(w: World, store: Store, request: NamespacedName, a: Answers)
    requires Confined(w, store.services) && IsLabelledListing(a.labelled, store, request)
    requires request !in store.services || !Enabled(store.services[request])
    ensures var o := Cleanup(store, request, a);
            OnlyAt(w.leader(request), store, o.store) && (IsLeaderName(w, request) ==> o.writes == [])
  {
    hide LeaderServiceName, Enabled, OnlyAt, LabelledFor;
    OnlyAtComposes(w.leader(request), store, store, store);
    if request in store.services && GetServiceCleanup !in a.failing {
      assert !IsLeaderName(w, request);
      var key := LeaderKey(store.services[request]);
      if key in store.services { WriteTouches(store, DeleteService(store.services[key])); }
    } else {
      forall s | s in a.labelled ensures s.key == w.leader(request) && !IsLeaderName(w, request) {
        assert LabelledFor(store.services[s.key], request);
      }
      assert a.labelled != [] ==> a.labelled[0] in a.labelled;
      RemoveEachAt(store, a.labelled, a.failing, w.leader(request));
    }
  }

  lemma RouteIsConfined(w: World, store: Store, svc: Service, chosen: Option<Pod>, a: Answers)
    requires Confined(w, store.services) && svc.key in store.services && store.services[svc.key] == svc && Source(svc)
    requires forall k :: k in store.slices ==> store.slices[k].key == k
    ensures var o := Route(store, svc, chosen, a);
            && !IsLeaderName(w, svc.key) && LeaderKey(svc) == w.leader(svc.key)
            && OnlyAt(w.leader(svc.key), store, o.store) && Confined(w, o.store.services)
  {
    hide LeaderServiceName, Route, Enabled, LabelledFor, Carries;
    assert !IsLeaderName(w, svc.key) && LeaderKey(svc) == w.leader(svc.key);
    RouteWrites(store, svc, chosen, a);
    RouteLeavesInert(store, svc, chosen, a);
    var key, after := LeaderKey(svc), Route(store, svc, chosen, a).store.services;
    if key in after && key in store.services {
      var s :| LabelledFor(store.services[key], s);
      assert LabelledFor(after[key], s);
    } else if key in after {
      assert LabelledFor(after[key], svc.key);
    }
  }

  /** A reconcile leaves every object alone that does not bear the request's leader name. */
  lemma ReconcileIsConfined(w: World, d: Director, request: NamespacedName, a: Answers)
    requires Confined(w, d.store.services) && IsLabelledListing(a.labelled, d.store, request)
    requires forall k :: k in d.store.slices ==> d.store.slices[k].key == k
    ensures var r := Reconcile(d, request, a);
            && OnlyAt(w.leader(request), d.store, r.director.store)
            && (IsLeaderName(w, request) ==> r.writes == [] && r.director.store == d.store)
            && Confined(w, r.director.store.services)
            && forall k :: k in r.director.store.slices ==> r.director.store.slices[k].key == k
  {
    hide LeaderServiceName, Reconcile, Route, Choose, Cleanup, Enabled, Product, UserMade, Carries;
    ReconcileRoutesOrCleans(d, request, a);
    OnlyAtComposes(w.leader(request), d.store, d.store, d.store);
    if Routes(d, request, a) {
      var svc := d.store.services[request];
      RouteIsConfined(w, d.store, svc, Chosen(d, svc, a).0, a);
      RouteWrites(d.store, svc, Chosen(d, svc, a).0, a);
    } else {
      ReconcileWithoutRouting(d, request, a);
      if Reconcile(d, request, a).writes != [] {
        CleanupIsConfined(w, d.store, request, a);
        CleanupWrites(d.store, request, a);
      }
    }
  }

  // ---------- Whole runs ----------

  ghost predicate PermittedRun(w: World, d: Director, steps: seq<Step>)
    decreases |steps|
  {
    steps != [] ==> Permitted(w, d, steps[0]) && PermittedRun(w, Next(d, steps[0]), steps[1..])
  }

  /** Each reconcile of the run touches only the leader Service and slice of its request, and a leader Service's own request nothing. */
  ghost predicate WritesConfined(w: World, d: Director, steps: seq<Step>)
    decreases |steps|
  {
    steps != [] ==>
      && (steps[0].Reconciles? ==>
            && OnlyAt(w.leader(steps[0].request), d.store, Next(d, steps[0]).store)
            && (IsLeaderName(w, steps[0].request) ==> Next(d, steps[0]).store == d.store))
      && WritesConfined(w, Next(d, steps[0]), steps[1..])
  }

  lemma StepIsConfined(w: World, d: Director, step: Step)
    requires Confined(w, d.store.services) && Permitted(w, d, step)
    requires forall k :: k in d.store.slices ==> d.store.slices[k].key == k
    ensures var e := Next(d, step);
            && Confined(w, e.store.services) && (forall k :: k in e.store.slices ==> e.store.slices[k].key == k)
            && (step.Reconciles? ==>
                  && OnlyAt(w.leader(step.request), d.store, e.store)
                  && (IsLeaderName(w, step.request) ==> e.store == d.store))
  {
    hide LeaderServiceName, Reconcile, Product, UserMade, OnlyAt;
    if step.Reconciles? { ReconcileIsConfined(w, d, step.request, step.answers); }
  }

  /** Writes stay confined over every run, whatever fails. */
  lemma {:induction false} WritesStayConfined(w: World, d: Director, steps: seq<Step>)
    requires Confined(w, d.store.services) && PermittedRun(w, d, steps)
    requires forall k :: k in d.store.slices ==> d.store.slices[k].key == k
    ensures Confined(w, Run(d, steps).store.services) && WritesConfined(w, d, steps)
    decreases |steps|
  {
    hide Confined, Next, OnlyAt;
    if steps != [] {
      StepIsConfined(w, d, steps[0]);
      WritesStayConfined(w, Next(d, steps[0]), steps[1..]);
    }
  }

  /** At most one leader Service for a source, and none for a leader Service. */
  lemma OneLeaderServiceEach(w: World, services: map<NamespacedName, Service>, source: NamespacedName, k: NamespacedName)
    requires Confined(w, services) && k in services && LabelledFor(services[k], source)
    ensures k == w.leader(source) && !IsLeaderName(w, source)
  {
    hide LeaderServiceName, Enabled, LabelledFor;
  }

  // ---------- Nothing is left behind ----------

  lemma {:induction false} RemoveEachRemoves(store: Store, services: seq<Service>, key: NamespacedName)
    ensures var o := RemoveEach(store, services, {});
            && (forall s :: s in services ==> s.key !in o.store.services)
            && (key !in store.services ==> key !in o.store.services)
    decreases |services|
  {
    if services != [] {
      var next := ApplyWrite(store, DeleteService(services[0]));
      RemoveEachRemoves(next, services[1..], services[0].key);
      RemoveEachRemoves(next, services[1..], key);
    }
  }

  /** Once a source is gone, a reconcile of its name without failures removes its leader Service. */
  lemma DeletedSourceIsCleanedUp(w: World, d: Director, request: NamespacedName, a: Answers)
    requires Confined(w, d.store.services) && LeaderNamesDistinct(w) && IsLabelledListing(a.labelled, d.store, request)
    requires request !in d.store.services && IsLeaderName(w, w.leader(request)) && a.failing == {}
    ensures w.leader(request) !in Reconcile(d, request, a).director.store.services
  {
    hide LeaderServiceName, Enabled, LabelledFor, Route, Choose, UpdateFor;
    var key := w.leader(request);
    RemoveEachRemoves(d.store, a.labelled, key);
    if key in d.store.services {
      var s :| LabelledFor(d.store.services[key], s);
      assert s == request;
      assert d.store.services[key] in a.labelled;
    }
  }

  // ---------- Without the hypothesis on names ----------

  /**
   Cleanup by name checks no label. Reconciling a Service that is not opted in deletes any Service,
   whoever made it, exactly if it stands under the name the leader Service would have.
   */
  lemma NotOptedInDeletesItsNamesake(d: Director, request: NamespacedName, a: Answers, k: NamespacedName)
    requires request in d.store.services && !Enabled(d.store.services[request]) && a.failing == {}
    requires forall j :: j in d.store.services ==> d.store.services[j].key == j
    requires k in d.store.services
    ensures k !in Reconcile(d, request, a).director.store.services <==> k == LeaderKey(d.store.services[request])
  {
    hide LeaderServiceName, Enabled, UpdateFor, Route, Choose, RemoveEach, Refresh;
  }

  /** For instance `web-leader`, made by a user, next to a Service `web` that never had anything to do with the director. */
  lemma UserServiceIsDeleted(namespace: string, bare: Service, own: Service, a: Answers)
    requires IsDNS1123Subdomain("web-leader")
    requires bare.key == NamespacedName(namespace, "web") && bare.annotations == map[]
    requires own.key == NamespacedName(namespace, "web-leader") && own.labels == map[]
    requires a.failing == {}
    ensures var d := Director(Store(map[bare.key := bare, own.key := own], map[], map[]), None, map[]);
            own.key !in Reconcile(d, bare.key, a).director.store.services
  {
    hide UpdateFor, Route, Choose, RemoveEach, Refresh, Reconcile;
    var services := map[bare.key := bare, own.key := own];
    var d := Director(Store(services, map[], map[]), None, map[]);
    assert bare.key.name != own.key.name;
    assert "web" + "-leader" == "web-leader";
    assert LeaderKey(bare) == own.key;
    NotOptedInDeletesItsNamesake(d, bare.key, a, own.key);
  }
}
