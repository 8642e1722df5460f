/**
 The director at work: one worker per request, its API calls interleaved with every change of
 the cluster, with events that are still to be delivered, with failures and with crashes.
 */
module Interleaving {
  import opened Wrappers
  import opened Kube
  import opened Selection
  import opened Routing
  import opened OptedIn
  import opened Reconciling
  import opened Runs
  import opened Watches

  /** How far a worker has come; `pods` is the answer of its one pod List. */
  datatype Phase =
    | Fetched(svc: Service)
    | Cleaning
    | Noted(svc: Service)
    | Listed(svc: Service, pods: seq<Pod>)
    | Chosen(svc: Service, pods: seq<Pod>, leader: Option<Pod>)
    | Published(svc: Service, pods: seq<Pod>, leader: Option<Pod>)
    | SliceRead(svc: Service, pods: seq<Pod>, leader: Option<Pod>, original: Option<EndpointSlice>)

  /** A change announced by the API server and not yet mapped to requests. */
  datatype Event = ServiceEvent(key: NamespacedName) | SliceEvent(slice: EndpointSlice) | PodEvent(pod: Pod)

  /** `snapshots` records every List answer ever given; the director does not see it. */
  datatype Snapshot = Snapshot(svc: Service, pods: seq<Pod>)

  datatype System = System(
    store: Store,
    leaderCache: LeaderCache,
    optedIn: OptedInCache,
    queue: set<NamespacedName>,
    workers: map<NamespacedName, Phase>,
    events: multiset<Event>,
    snapshots: set<Snapshot>)

  datatype Action =
    | ChangePod(key: NamespacedName, pod: Option<Pod>)
    | ChangeService(key: NamespacedName, svc: Option<Service>)
    | Collect(slice: NamespacedName)
    | DeliverEvent(event: Event)
    | RefreshCache(namespace: string, list: seq<CachedService>)
    | SweepCache(now: Time)
    | Start(request: NamespacedName)
    | Note(request: NamespacedName)
    | CleanUp(request: NamespacedName, answers: Answers)
    | ListPodsOf(request: NamespacedName, listing: seq<Pod>)
    | ChooseLeader(request: NamespacedName, answers: Answers)
    | PublishService(request: NamespacedName, answers: Answers)
    | ReadSlice(request: NamespacedName, answers: Answers)
    | PatchSlice(request: NamespacedName, answers: Answers)
    | GiveUp(request: NamespacedName)
    | Resync(announced: multiset<Event>)
    | Crash(announced: multiset<Event>)

  // ---------- Events ----------

  function EventOf(w: Write): Event {
    if w.PutService? || w.DeleteService? then ServiceEvent(w.service.key) else SliceEvent(w.slice)
  }

  function EventsOf(ws: seq<Write>): multiset<Event> {
    if ws == [] then multiset{} else multiset{EventOf(ws[0])} + EventsOf(ws[1..])
  }

  /** The pod watch: creations and deletions always, updates if the predicate passes them. */
  function PodEvents(before: Option<Pod>, after: Option<Pod>): multiset<Event> {
    match (before, after)
    case (None, None) => multiset{}
    case (None, Some(p)) => multiset{PodEvent(p)}
    case (Some(p), None) => multiset{PodEvent(p)}
    case (Some(p), Some(q)) => if UpdatePasses(p, q) then multiset{PodEvent(q)} else multiset{}
  }

  /** The requests that the delivery of an event puts on the queue. */
  function Mapped(optedIn: OptedInCache, e: Event): set<NamespacedName> {
    match e
    case ServiceEvent(key) => {key}
    case SliceEvent(slice) => SliceRequests(slice)
    case PodEvent(pod) => set k | k in Requests(Entries(optedIn, pod.key.namespace), pod.key.namespace, pod.labels)
  }

  // ---------- Create, or merge-patch ----------

  /** A JSON merge patch sends the fields that differ from the original; the others stay as they are now. */
  function MergePatch(current: SliceBody, original: SliceBody, wanted: SliceBody): SliceBody {
    SliceBody(
      if wanted.addressType != original.addressType then wanted.addressType else current.addressType,
      if wanted.endpoints != original.endpoints then wanted.endpoints else current.endpoints,
      if wanted.ports != original.ports then wanted.ports else current.ports)
  }

  function BodyFor(svc: Service, leader: Option<Pod>): SliceBody {
    ResolvedPortsOfRouted(svc, leader);
    LeaderBody(Routed(svc, leader), RoutedPorts(svc, leader))
  }

  /** The write that ends reconcileEndpointSlice, some time after its Get returned `original`. */
  function SendSlice(store: Store, svc: Service, original: Option<EndpointSlice>, wanted: SliceBody, a: Answers): Outcome {
    var key := LeaderKey(svc);
    if original.None? then
      if key in store.slices || CreateSlice in a.failing then Fail(store)
      else Commit(store, PutSlice(EndpointSlice(key, SliceLabels(svc), key.name, SliceOwnerUid(store, key, a), wanted)))
    else if key !in store.slices || Call.PatchSlice in a.failing then Fail(store)
    else
      var patched := store.slices[key].(body := MergePatch(store.slices[key].body, original.value.body, wanted));
      if patched == store.slices[key] then Outcome(store, [], true) else Commit(store, PutSlice(patched))
  }

  /** With nothing in between, Get and write are the single step of an uninterrupted reconcile. */
  lemma ReadThenSendIsWriteSlice(store: Store, svc: Service, leader: Option<Pod>, a: Answers)
    requires RoutedPorts(svc, leader) != [] || Routed(svc, leader).None?
    requires GetSliceReconcile !in a.failing
    ensures SendSlice(store, svc, Get(store.slices, LeaderKey(svc)), BodyFor(svc, leader), a)
            == WriteSlice(store, svc, Routed(svc, leader), RoutedPorts(svc, leader), a)
  {
    hide LeaderServiceName, SliceLabels, LeaderBody, RoutedPorts;
    ResolvedPortsOfRouted(svc, leader);
  }

  // ---------- Steps ----------

  function Set<K, V>(m: map<K, V>, k: K, v: Option<V>): map<K, V> {
    if v.Some? then m[k := v.value] else m - {k}
  }

  function WithWrites(s: System, o: Outcome): System {
    s.(store := o.store, events := s.events + EventsOf(o.writes))
  }

  /** The worker is done; an error puts its request back on the queue. */
  function Finish(s: System, request: NamespacedName, ok: bool): System {
    s.(workers := s.workers - {request}, queue := s.queue + (if ok then {} else {request}))
  }

  function At(s: System, request: NamespacedName, phase: Phase): System {
    s.(workers := s.workers[request := phase])
  }

  /** The director as its reconciles see it: the store and both caches. */
  function DirectorOf(s: System): Director {
    Director(s.store, s.leaderCache, s.optedIn)
  }

  /** The choice among the pods a worker listed, and the leader cache after it. */
  function ChosenFrom(s: System, phase: Phase, a: Answers): (r: (Option<Pod>, LeaderCache))
    requires phase.Listed?
    ensures r.0.Some? ==> r.0.value in phase.pods && IsPodReady(r.0.value)
  {
    Runs.Chosen(DirectorOf(s), phase.svc, a.(listing := phase.pods))
  }

  predicate Possible(s: System, act: Action) {
    match act
    case ChangePod(_, _) => true
    case ChangeService(_, _) => true
    case Collect(slice) => slice in s.store.slices
    case DeliverEvent(e) => e in s.events
    case RefreshCache(_, _) => true
    case SweepCache(_) => true
    case Start(k) => k in s.queue && k !in s.workers
    case Note(k) => k in s.workers && s.workers[k].Fetched?
    case CleanUp(k, _) => k in s.workers && s.workers[k].Cleaning?
    case ListPodsOf(k, _) => k in s.workers && s.workers[k].Noted?
    case ChooseLeader(k, _) => k in s.workers && s.workers[k].Listed?
    case PublishService(k, _) => k in s.workers && s.workers[k].Chosen?
    case ReadSlice(k, _) => k in s.workers && s.workers[k].Published?
    case PatchSlice(k, _) => k in s.workers && s.workers[k].SliceRead?
    case GiveUp(k) => k in s.workers
    case Resync(_) => true
    case Crash(_) => true
  }

  function Act(s: System, act: Action): System
    requires Possible(s, act)
  {
    match act
    case ChangePod(key, pod) =>
      s.(store := s.store.(pods := Set(s.store.pods, key, pod)), events := s.events + PodEvents(Get(s.store.pods, key), pod))
    case ChangeService(key, svc) =>
      s.(store := s.store.(services := Set(s.store.services, key, svc)), events := s.events + multiset{ServiceEvent(key)})
    case Collect(slice) =>
      s.(store := s.store.(slices := s.store.slices - {slice}), events := s.events + multiset{SliceEvent(s.store.slices[slice])})
    case DeliverEvent(e) =>
      s.(queue := s.queue + Mapped(s.optedIn, e), events := s.events - multiset{e})
    case RefreshCache(namespace, list) =>
      s.(optedIn := s.optedIn[namespace := list])
    case SweepCache(now) =>
      s.(leaderCache := Sweep(s.leaderCache, now))
    case Start(k) =>
      At(s.(queue := s.queue - {k}), k, if k in s.store.services then Fetched(s.store.services[k]) else Cleaning)
    case Note(k) =>
      var svc := s.workers[k].svc;
      var noted := s.(optedIn := UpdateFor(s.optedIn, svc));
      if !Enabled(svc) then At(noted, k, Cleaning)
      else if !ValidNames(k) then Finish(noted, k, false)
      else if |svc.selector| == 0 then Finish(noted, k, true)
      else At(noted, k, Noted(svc))
    case CleanUp(k, a) =>
      var o := Cleanup(s.store, k, a);
      Finish(WithWrites(s, o), k, o.ok)
    case ListPodsOf(k, listing) =>
      var svc := s.workers[k].svc;
      At(s.(snapshots := s.snapshots + {Snapshot(svc, listing)}), k, Listed(svc, listing))
    case ChooseLeader(k, a) =>
      var w := s.workers[k];
      var (leader, cache) := ChosenFrom(s, w, a);
      At(s.(leaderCache := cache), k, Chosen(w.svc, w.pods, leader))
    case PublishService(k, a) =>
      var w := s.workers[k];
      var o := Publish(s.store, w.svc, w.leader, a);
      if o.ok then At(WithWrites(s, o), k, Published(w.svc, w.pods, w.leader)) else Finish(WithWrites(s, o), k, false)
    case ReadSlice(k, a) =>
      var w := s.workers[k];
      if (RoutedPorts(w.svc, w.leader) == [] && Routed(w.svc, w.leader).Some?) || GetSliceReconcile in a.failing then Finish(s, k, false)
      else At(s, k, SliceRead(w.svc, w.pods, w.leader, Get(s.store.slices, LeaderKey(w.svc))))
    case PatchSlice(k, a) =>
      var w := s.workers[k];
      var o := SendSlice(s.store, w.svc, w.original, BodyFor(w.svc, w.leader), a);
      Finish(WithWrites(s, o), k, o.ok)
    case GiveUp(k) => Finish(s, k, false)
    case Resync(announced) => s.(events := s.events + announced)
    case Crash(announced) =>
      s.(leaderCache := if s.leaderCache.None? then None else Some(map[]), optedIn := map[], queue := {}, workers := map[], events := announced)
  }

  // ---------- Where steps lead ----------

  /** Where a Note step leads: a source goes on to its pods, unless its name is invalid; nothing else does. */
  lemma NoteStep(s: System, k: NamespacedName)
    requires Possible(s, Note(k))
    ensures var svc, t := s.workers[k].svc, Act(s, Note(k));
            t == s.(optedIn := UpdateFor(s.optedIn, svc), workers := t.workers, queue := t.queue)
            && (if !Enabled(svc) then t.workers == s.workers[k := Cleaning] && t.queue == s.queue
                else if !ValidNames(k) then t.workers == s.workers - {k} && t.queue == s.queue + {k}
                else if |svc.selector| == 0 then t.workers == s.workers - {k} && t.queue == s.queue
                else t.workers == s.workers[k := Noted(svc)] && t.queue == s.queue)
  {
    hide UpdateFor, Enabled;
  }

  lemma NoteSteps(s: System, k: NamespacedName)
    requires Possible(s, Note(k))
    ensures var t, svc := Act(s, Note(k)), s.workers[k].svc;
            && t.store == s.store && t.events == s.events && t.leaderCache == s.leaderCache && t.optedIn == UpdateFor(s.optedIn, svc) && s.queue <= t.queue
            && (k in t.workers ==> t.workers[k] == if Enabled(svc) then Noted(svc) else Cleaning)
            && (k in t.workers && Enabled(svc) ==> Source(svc)) && (k !in t.workers ==> k in t.queue || !Source(svc))
  {
    hide UpdateFor, Enabled, Act;
    NoteStep(s, k);
  }

  lemma ChooseSteps(s: System, k: NamespacedName, a: Answers)
    requires Possible(s, ChooseLeader(k, a))
    ensures var t, p := Act(s, ChooseLeader(k, a)), s.workers[k];
            t == s.(leaderCache := ChosenFrom(s, p, a).1, workers := s.workers[k := Phase.Chosen(p.svc, p.pods, ChosenFrom(s, p, a).0)])
  {
    hide ChosenFrom;
  }

  /** Where a PublishService step leads: the worker goes on, or its request is queued again. */
  lemma PublishSteps(s: System, k: NamespacedName, a: Answers)
    requires Possible(s, PublishService(k, a))
    ensures var t, p, o := Act(s, PublishService(k, a)), s.workers[k], Publish(s.store, s.workers[k].svc, s.workers[k].leader, a);
            && t.store == o.store && t.events == s.events + EventsOf(o.writes)
            && (if o.ok then k in t.workers && t.workers[k] == Published(p.svc, p.pods, p.leader) else k in t.queue && k !in t.workers)
            && (o.ok ==> t == s.(store := t.store, events := t.events, workers := s.workers[k := Published(p.svc, p.pods, p.leader)]))
            && (!o.ok ==> t == s.(store := t.store, events := t.events, workers := s.workers - {k}, queue := s.queue + {k}))
  {
    hide LeaderServiceName, Publish, EventsOf;
  }

  lemma PatchSteps(s: System, k: NamespacedName, a: Answers)
    requires Possible(s, Action.PatchSlice(k, a))
    ensures var t, p := Act(s, Action.PatchSlice(k, a)), s.workers[k];
            var o := SendSlice(s.store, p.svc, p.original, BodyFor(p.svc, p.leader), a);
            && t.store == o.store && t.events == s.events + EventsOf(o.writes)
            && k !in t.workers && (o.ok || k in t.queue)
            && t == s.(store := t.store, events := t.events, workers := s.workers - {k}, queue := s.queue + (if o.ok then {} else {k}))
  {
    hide LeaderServiceName, SendSlice, EventsOf, BodyFor;
  }

  /** Where a ReadSlice step leads, if the source has a port and its ports resolve or none is routed to. */
  lemma ReadSteps(s: System, k: NamespacedName, a: Answers)
    requires Possible(s, ReadSlice(k, a)) && GetSliceReconcile !in a.failing && |s.workers[k].svc.ports| > 0
    ensures var t, p := Act(s, ReadSlice(k, a)), s.workers[k];
            t == s.(workers := s.workers[k := SliceRead(p.svc, p.pods, p.leader, Get(s.store.slices, LeaderKey(p.svc)))])
  {
    hide LeaderServiceName, ResolvePorts;
    ResolutionIsAllOrNothing(s.workers[k].svc.ports, s.workers[k].leader);
  }

  // ---------- Names ----------

  /** Users keep the leader Service names of sources and the identity of pods; List answers with the matching pods. */
  ghost predicate Allowed(w: World, s: System, act: Action)
    requires Possible(s, act)
  {
    match act
    case ChangeService(key, svc) => svc.Some? ==> svc.value.key == key && (Source(svc.value) ==> LeaderKey(svc.value) == w.leader(key))
    case ChangePod(key, pod) => pod.Some? ==> pod.value.key == key && pod.value.uid != "" && w.home(pod.value.uid) == key
    case ListPodsOf(k, listing) => IsListing(listing, s.store, s.workers[k].svc)
    case _ => true
  }

  /** A worker acts for its own source, and nobody else touches the slice it read. */
  ghost predicate WorkerOf(w: World, s: System, k: NamespacedName, phase: Phase) {
    && (!phase.Cleaning? ==> phase.svc.key == k && (Source(phase.svc) ==> LeaderKey(phase.svc) == w.leader(k)))
    && (!phase.Cleaning? && !phase.Fetched? ==> Source(phase.svc))
    && (phase.SliceRead? ==>
          if phase.original.None? then w.leader(k) !in s.store.slices
          else w.leader(k) in s.store.slices ==> s.store.slices[w.leader(k)] == phase.original.value)
  }

  ghost predicate NamesHeld(w: World, s: System) {
    && ServicesOf(w, s.store.services)
    && (forall k :: k in s.store.slices ==> s.store.slices[k].key == k)
    && (forall k :: k in s.workers ==> WorkerOf(w, s, k, s.workers[k]))
  }

  /** What a worker's own writes change: its leader Service and its slice. */
  lemma WorkerWrites(w: World, s: System, act: Action)
    requires Possible(s, act) && NamesHeld(w, s) && (act.PublishService? || act.PatchSlice?)
    ensures var t, k := Act(s, act), act.request;
            && OnlyAt(w.leader(k), s.store, t.store) && SelectorLess(w.leader(k), s.store, t.store)
            && (forall j :: j in t.store.slices ==> t.store.slices[j].key == j)
            && t.workers.Keys <= s.workers.Keys && (forall j :: j != k && j in s.workers ==> j in t.workers && t.workers[j] == s.workers[j])
            && (k in t.workers ==> s.workers[k].Chosen? && t.workers[k] == Published(s.workers[k].svc, s.workers[k].pods, s.workers[k].leader))
  {
    hide LeaderServiceName, Publish, BodyFor, SliceLabels, EventsOf, Source, MergePatch;
    var phase := s.workers[act.request];
    assert LeaderKey(phase.svc) == w.leader(act.request) by { WorkerLeader(w, s, act.request); }
    if act.PublishService? {
      PublishWrites(s.store, phase.svc, phase.leader, act.answers);
    } else {
      SendSliceWrites(s.store, phase.svc, phase.original, BodyFor(phase.svc, phase.leader), act.answers);
    }
  }

  lemma WorkerLeader(w: World, s: System, k: NamespacedName)
    requires NamesHeld(w, s) && k in s.workers && !s.workers[k].Cleaning? && !s.workers[k].Fetched?
    ensures LeaderKey(s.workers[k].svc) == w.leader(k)
  {
  }

  lemma SendSliceWrites(store: Store, svc: Service, original: Option<EndpointSlice>, wanted: SliceBody, a: Answers)
    requires forall k :: k in store.slices ==> store.slices[k].key == k
    ensures var o := SendSlice(store, svc, original, wanted, a);
            && OnlyAt(LeaderKey(svc), store, o.store) && o.store.services == store.services
            && (forall k :: k in o.store.slices ==> o.store.slices[k].key == k)
            && (o.writes == [] ==> o.store == store)
            && (o.ok ==> LeaderKey(svc) in o.store.slices)
            && (!o.ok ==> o.store == store)
  {
    hide LeaderServiceName, SliceLabels, MergePatch, OnlyAt;
    var o := SendSlice(store, svc, original, wanted, a);
    OnlyAtComposes(LeaderKey(svc), store, store, store);
    if o.writes != [] { WriteTouches(store, o.writes[0]); }
  }

  /** Steps by which a worker moves on without writing. */
  predicate Advances(act: Action) {
    act.Start? || act.Note? || act.ListPodsOf? || act.ChooseLeader? || act.ReadSlice?
  }

  lemma AdvanceMoves(s: System, act: Action)
    requires Possible(s, act) && Advances(act)
    ensures Act(s, act).store == s.store
    ensures forall k :: k != act.request ==> Get(Act(s, act).workers, k) == Get(s.workers, k)
  {
    hide LeaderServiceName, ChosenFrom, UpdateFor, RoutedPorts, Routed, Enabled;
  }

  lemma OtherWorkerOf(w: World, s: System, t: System, k: NamespacedName)
    requires k in s.workers && WorkerOf(w, s, k, s.workers[k]) && t.store == s.store
    ensures WorkerOf(w, t, k, s.workers[k])
  {
    hide LeaderServiceName, Source;
  }

  lemma AdvancedWorker(w: World, s: System, act: Action)
    requires Possible(s, act) && NamesHeld(w, s) && Advances(act)
    ensures var t, k := Act(s, act), act.request; k in t.workers ==> WorkerOf(w, t, k, t.workers[k])
  {
    hide LeaderServiceName, ChosenFrom, UpdateFor, RoutedPorts, Routed, Enabled, EventsOf, PodEvents, Mapped;
    if act.ReadSlice? { WorkerLeader(w, s, act.request); }
  }

  /** An advancing worker stays with its Service; the store and the other workers stay as they are. */
  lemma AdvanceHoldsNames(w: World, s: System, act: Action)
    requires Possible(s, act) && NamesHeld(w, s) && Advances(act)
    ensures Act(s, act).store == s.store
    ensures NamesHeld(w, Act(s, act))
  {
    hide LeaderServiceName, Act, ServicesOf, WorkerOf;
    AdvanceMoves(s, act);
    forall k | k in Act(s, act).workers ensures WorkerOf(w, Act(s, act), k, Act(s, act).workers[k]) {
      if k == act.request {
        AdvancedWorker(w, s, act);
      } else {
        assert Get(Act(s, act).workers, k) == Get(s.workers, k);
        OtherWorkerOf(w, s, Act(s, act), k);
      }
    }
  }

  lemma WritesHoldNames(w: World, s: System, act: Action)
    requires LeaderNamesDistinct(w) && Possible(s, act) && NamesHeld(w, s) && (act.PublishService? || act.PatchSlice?)
    ensures NamesHeld(w, Act(s, act))
  {
    hide LeaderServiceName, Act, Enabled;
    WorkerWrites(w, s, act);
  }

  lemma FewerHoldNames(w: World, s: System, t: System)
    requires NamesHeld(w, s) && ServicesOf(w, t.store.services)
    requires forall k :: k in t.store.slices ==> k in s.store.slices && t.store.slices[k] == s.store.slices[k]
    requires forall k :: k in t.workers ==> k in s.workers && t.workers[k] == s.workers[k]
    ensures NamesHeld(w, t)
  {
    hide LeaderServiceName, Source;
    forall k | k in t.workers ensures WorkerOf(w, t, k, t.workers[k]) { assert WorkerOf(w, s, k, s.workers[k]); }
  }

  lemma CleanUpHoldsNames(w: World, s: System, act: Action)
    requires Possible(s, act) && NamesHeld(w, s) && act.CleanUp?
    ensures NamesHeld(w, Act(s, act))
  {
    hide LeaderServiceName, Cleanup, EventsOf, Enabled, WorkerOf;
    CleanupWrites(s.store, act.request, act.answers);
    FewerHoldNames(w, s, Act(s, act));
  }

  lemma OthersHoldNames(w: World, s: System, act: Action)
    requires Possible(s, act) && Allowed(w, s, act) && NamesHeld(w, s)
    requires !Advances(act) && !act.PublishService? && !act.PatchSlice? && !act.CleanUp?
    ensures NamesHeld(w, Act(s, act))
  {
    hide LeaderServiceName, PodEvents, Mapped, Enabled, WorkerOf;
    FewerHoldNames(w, s, Act(s, act));
  }

  lemma NamesAreHeld(w: World, s: System, act: Action)
    requires LeaderNamesDistinct(w) && Possible(s, act) && Allowed(w, s, act) && NamesHeld(w, s)
    ensures NamesHeld(w, Act(s, act))
  {
    hide LeaderServiceName, Act, Allowed, NamesHeld;
    if Advances(act) {
      AdvanceHoldsNames(w, s, act);
    } else if act.PublishService? || act.PatchSlice? {
      WritesHoldNames(w, s, act);
    } else if act.CleanUp? {
      CleanUpHoldsNames(w, s, act);
    } else {
      OthersHoldNames(w, s, act);
    }
  }
}
