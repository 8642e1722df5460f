/**
 What the answer of a reconcile means: when it reports success, what it leaves in the opted-in cache,
 what cleanup removes; and that a worker that nothing interrupts does just what a reconcile does.
 */
module Outcomes {
  import opened Wrappers
  import opened Kube
  import opened Selection
  import opened Routing
  import opened OptedIn
  import opened Reconciling
  import opened Runs
  import opened Interleaving
  import opened Provenance
  import opened SharedSlices

  // ---------- Success ----------

  /** Each call that a routing makes succeeds, and a source that routes to a pod has a port. */
  predicate CallsSucceed(store: Store, svc: Service, chosen: Option<Pod>, a: Answers) {
    var dropped := !Resolvable(svc.ports, chosen) && GetSliceCleanup !in a.failing && RemoveSlice !in a.failing;
    && GetLeaderService !in a.failing
    && (if LeaderKey(svc) in store.services then PatchLeaderService else CreateLeaderService) !in a.failing
    && !(chosen.Some? && svc.ports == [])
    && GetSliceReconcile !in a.failing
    && (if LeaderKey(svc) in store.slices && !dropped then Call.PatchSlice else CreateSlice) !in a.failing
  }

  lemma ServiceWriteSucceedsIff(store: Store, svc: Service, leader: Option<Pod>, ports: seq<ServicePort>, a: Answers)
    ensures var o := WriteLeaderService(store, svc, leader, ports, a);
            && o.store.slices == store.slices
            && (o.ok <==> GetLeaderService !in a.failing
                          && (if LeaderKey(svc) in store.services then PatchLeaderService else CreateLeaderService) !in a.failing)
  {
    hide LeaderServiceName, NewLeaderService, UpdatedLeaderService;
  }

  lemma SliceWriteSucceedsIff(store: Store, svc: Service, leader: Option<Pod>, ports: seq<ServicePort>, a: Answers)
    requires AllNumbered(ports)
    ensures WriteSlice(store, svc, leader, ports, a).ok <==>
              && !(ports == [] && leader.Some?) && GetSliceReconcile !in a.failing
              && (if LeaderKey(svc) in store.slices then Call.PatchSlice else CreateSlice) !in a.failing
  {
    hide LeaderServiceName, SliceLabels, LeaderBody;
  }

  lemma DropSliceDropsIff(store: Store, key: NamespacedName, a: Answers)
    requires forall k :: k in store.slices ==> store.slices[k].key == k
    ensures var o := DropSlice(store, key, a);
            && o.store.services == store.services
            && (key in o.store.slices <==> key in store.slices && (GetSliceCleanup in a.failing || RemoveSlice in a.failing))
  {
  }

  lemma NoPortsIff(svc: Service, chosen: Option<Pod>)
    ensures AllNumbered(RoutedPorts(svc, chosen))
    ensures RoutedPorts(svc, chosen) == [] && Routed(svc, chosen).Some? <==> chosen.Some? && svc.ports == []
  {
    ResolutionIsAllOrNothing(svc.ports, chosen);
  }

  /** A routing succeeds exactly if each call it makes does, the deletion of an unresolved slice excepted. */
  lemma RouteSucceedsIff(store: Store, svc: Service, chosen: Option<Pod>, a: Answers)
    requires forall k :: k in store.slices ==> store.slices[k].key == k
    ensures Route(store, svc, chosen, a).ok <==> CallsSucceed(store, svc, chosen, a)
  {
    hide LeaderServiceName, WriteLeaderService, WriteSlice, DropSlice, Resolvable, Routed, RoutedPorts;
    var dropped := if Resolvable(svc.ports, chosen) then Outcome(store, [], true) else DropSlice(store, LeaderKey(svc), a);
    var leader, ports := Routed(svc, chosen), RoutedPorts(svc, chosen);
    DropSliceDropsIff(store, LeaderKey(svc), a);
    NoPortsIff(svc, chosen);
    ServiceWriteSucceedsIff(dropped.store, svc, leader, ports, a);
    SliceWriteSucceedsIff(Publish(store, svc, chosen, a).store, svc, leader, ports, a);
  }

  /** A reconcile of a stored source succeeds exactly if its names are valid and each call it makes succeeds. */
  lemma SourceSucceedsIff(d: Director, k: NamespacedName, a: Answers)
    requires k in d.store.services && Source(d.store.services[k]) && forall j :: j in d.store.slices ==> d.store.slices[j].key == j
    ensures Reconcile(d, k, a).ok <==>
              && GetService !in a.failing && ValidNames(k) && ListPods !in a.failing
              && CallsSucceed(d.store, d.store.services[k], Runs.Chosen(d, d.store.services[k], a).0, a)
  {
    hide Route, Choose, UpdateFor, Enabled, CallsSucceed, Cleanup, ApplyWrites;
    RouteSucceedsIff(d.store, d.store.services[k], Runs.Chosen(d, d.store.services[k], a).0, a);
  }

  /** Success means that the source's slice is there and carries the pod chosen among the listed ones. */
  lemma SuccessMeansRouted(d: Director, k: NamespacedName, a: Answers)
    requires k in d.store.services && Source(d.store.services[k]) && Reconcile(d, k, a).ok
    requires forall j :: j in d.store.slices ==> d.store.slices[j].key == j
    requires forall j :: j in d.store.services ==> d.store.services[j].key == j
    ensures var svc, slices, chosen := d.store.services[k], Reconcile(d, k, a).director.store.slices, Runs.Chosen(d, d.store.services[k], a).0;
            && (chosen.Some? ==> chosen.value in a.listing && IsPodReady(chosen.value))
            && LeaderKey(svc) in slices && Carries(slices[LeaderKey(svc)], svc, chosen)
  {
    hide LeaderServiceName, Reconcile, Route, Choose, Enabled, Carries;
    var svc := d.store.services[k];
    SourceSucceedsIff(d, k, a);
    ReconcileRoutesOrCleans(d, k, a);
    RouteWrites(d.store, svc, Runs.Chosen(d, svc, a).0, a);
  }

  /** Without the Service, without a valid name, or without the pods, nothing is written; the first two and a failed List are errors. */
  lemma NothingIsDoneUnread(d: Director, k: NamespacedName, a: Answers)
    ensures var r := Reconcile(d, k, a);
            && (GetService in a.failing ==> !r.ok && r.writes == [] && r.director.leaderCache == d.leaderCache)
            && (GetService !in a.failing && k in d.store.services && Enabled(d.store.services[k]) ==>
                  && (!ValidNames(k) ==> !r.ok && r.writes == [])
                  && (ValidNames(k) && |d.store.services[k].selector| == 0 ==> r.ok && r.writes == [])
                  && (|d.store.services[k].selector| > 0 && ListPods in a.failing ==> !r.ok && r.writes == []))
  {
    hide Route, Choose, UpdateFor, Enabled, Cleanup, ApplyWrites;
  }

  // ---------- Cleanup ----------

  /** The Service is read for cleanup, so the leader Service is looked for by name. */
  predicate CleansByName(store: Store, source: NamespacedName, a: Answers) {
    GetServiceCleanup !in a.failing && source in store.services
  }

  /** Cleanup fails exactly if the deletion by name fails; deletions by label are best effort. */
  lemma CleanupSucceedsIff(store: Store, source: NamespacedName, a: Answers)
    ensures Cleanup(store, source, a).ok <==>
              !(&& CleansByName(store, source, a) && LeaderKey(store.services[source]) in store.services
                && GetLeaderServiceCleanup !in a.failing && RemoveLeaderService in a.failing)
  {
    hide LeaderServiceName;
  }

  /** What cleanup removes, with any failures: by name that one Service, by label each whose deletion succeeds. */
  lemma CleanupRemovesIff(store: Store, source: NamespacedName, a: Answers, k: NamespacedName)
    requires (forall j :: j in store.services ==> store.services[j].key == j) && IsLabelledListing(a.labelled, store, source) && k in store.services
    ensures k !in Cleanup(store, source, a).store.services <==>
              if CleansByName(store, source, a) then
                k == LeaderKey(store.services[source]) && GetLeaderServiceCleanup !in a.failing && RemoveLeaderService !in a.failing
              else ListLeaderServices !in a.failing && LabelledFor(store.services[k], source) && RemoveByLabel(k) !in a.failing
  {
    hide LeaderServiceName, LabelledFor, ApplyWrites;
    if !CleansByName(store, source, a) {
      RemoveEachRemovesIff(store, a.labelled, a.failing, k);
      assert (exists s :: s in a.labelled && s.key == k) <==> LabelledFor(store.services[k], source) by {
        if LabelledFor(store.services[k], source) { assert store.services[k] in a.labelled; }
      }
    }
  }

  lemma {:induction false} RemoveEachRemovesIff(store: Store, services: seq<Service>, failing: set<Call>, k: NamespacedName)
    ensures k in RemoveEach(store, services, failing).store.services <==>
              k in store.services && !(RemoveByLabel(k) !in failing && exists s :: s in services && s.key == k)
    decreases |services|
  {
    if services != [] {
      var next := ApplyWrite(store, DeleteService(services[0]));
      RemoveEachRemovesIff(store, services[1..], failing, k);
      RemoveEachRemovesIff(next, services[1..], failing, k);
      assert services == [services[0]] + services[1..];
    }
  }

  // ---------- The opted-in cache ----------

  /** What the cache says of a Service after a reconcile: what was read of it, or what a refresh found, or what it said before. */
  lemma CacheAfterReconcile(d: Director, k: NamespacedName, a: Answers, j: NamespacedName)
    requires CacheWellFormed(d.optedIn) && forall i :: i in d.store.services ==> d.store.services[i].key == i
    ensures var after := Lookup(Entries(Reconcile(d, k, a).director.optedIn, j.namespace), j.name);
            after ==
            if GetService !in a.failing && k in d.store.services then
              if j != k then Lookup(Entries(d.optedIn, j.namespace), j.name)
              else if Source(d.store.services[k]) then Some(d.store.services[k].selector) else None
            else if j.namespace == k.namespace && ListServicesCache !in a.failing then Lookup(a.refreshed, j.name)
            else Lookup(Entries(d.optedIn, j.namespace), j.name)
  {
    hide Route, Choose, UpdateFor, Cleanup, Enabled, ApplyWrites;
    if k in d.store.services { UpdateForRefinesMap(d.optedIn, d.store.services[k], j.namespace, j.name); }
  }

  // ---------- An attempt that nothing interrupts ----------

  function Refreshing(k: NamespacedName, a: Answers): seq<Action> {
    if ListServicesCache in a.failing then [] else [RefreshCache(k.namespace, a.refreshed)]
  }

  /** The steps of a worker whose calls are answered as in this reconcile. */
  function Attempt(s: System, k: NamespacedName, a: Answers): seq<Action> {
    if GetService in a.failing then [Start(k), GiveUp(k)] + Refreshing(k, a)
    else if k !in s.store.services then [Start(k)] + Refreshing(k, a) + [CleanUp(k, a)]
    else
      var svc := s.store.services[k];
      if !Enabled(svc) then [Start(k), Note(k), CleanUp(k, a)]
      else if !ValidNames(k) || |svc.selector| == 0 then [Start(k), Note(k)]
      else if ListPods in a.failing then [Start(k), Note(k), GiveUp(k)]
      else
        var leader := Runs.Chosen(DirectorOf(s), svc, a).0;
        [Start(k), Note(k), ListPodsOf(k, a.listing), ChooseLeader(k, a), PublishService(k, a)]
        + (if !Publish(s.store, svc, leader, a).ok then []
           else if ReadFails(svc, leader, a) then [ReadSlice(k, a)]
           else [ReadSlice(k, a), Action.PatchSlice(k, a)])
  }

  predicate ReadFails(svc: Service, leader: Option<Pod>, a: Answers) {
    (RoutedPorts(svc, leader) == [] && Routed(svc, leader).Some?) || GetSliceReconcile in a.failing
  }

  /** The system after a reconcile of k: its store, caches and events, and the request queued again after an error. */
  ghost predicate Reconciled(s: System, t: System, k: NamespacedName, a: Answers) {
    var r := Reconcile(DirectorOf(s), k, a);
    && DirectorOf(t) == r.director && t.events == s.events + EventsOf(r.writes)
    && t.workers == s.workers && t.queue == s.queue - {k} + (if r.ok then {} else {k})
  }

  /** A request waits, and the API server answers the Lists with what is stored. */
  ghost predicate Ready(s: System, k: NamespacedName, a: Answers) {
    && k in s.queue && k !in s.workers
    && (forall j :: j in s.store.services ==> s.store.services[j].key == j)
    && (forall j :: j in s.store.slices ==> s.store.slices[j].key == j)
    && Lists(s.store, k, a)
  }

  lemma EventsOfMore(w: Write, ws: seq<Write>)
    ensures EventsOf([w] + ws) == multiset{EventOf(w)} + EventsOf(ws)
  {
    assert ([w] + ws)[1..] == ws;
  }

  lemma Regroup<T>(first: multiset<T>, rest: multiset<T>, more: multiset<T>, all: multiset<T>)
    requires all == first + (rest + more)
    ensures all == (first + rest) + more
  {
  }

  lemma {:induction false} EventsAddUp(ws: seq<Write>, more: seq<Write>)
    ensures EventsOf(ws + more) == EventsOf(ws) + EventsOf(more)
  {
    hide EventsOf, EventOf;
    if ws == [] {
      assert ws + more == more;
      NoEvents();
    } else {
      var w, rest := ws[0], ws[1..];
      EventsAddUp(rest, more);
      assert ws == [w] + rest && ws + more == [w] + (rest + more);
      EventsOfMore(w, rest);
      EventsOfMore(w, rest + more);
      Regroup(multiset{EventOf(w)}, EventsOf(rest), EventsOf(more), EventsOf(ws + more));
    }
  }

  /** Setting a new key and dropping it, or setting it again. */
  lemma SetAndDrop<K, V>(m: map<K, V>, k: K, v: V, other: V)
    requires k !in m
    ensures m[k := v] - {k} == m && m[k := v][k := other] == m[k := other]
  {
  }

  lemma OneStep(w: World, s: System, act: Action)
    requires Possible(s, act) && Allowed(w, s, act)
    ensures AllowedRun(w, s, [act]) && After(w, s, [act]) == Act(s, act)
  {
    hide Possible, Act, Allowed;
    assert [act][1..] == [];
  }

  lemma NextStep(w: World, s: System, acts: seq<Action>, act: Action)
    requires AllowedRun(w, s, acts) && Possible(After(w, s, acts), act) && Allowed(w, After(w, s, acts), act)
    ensures AllowedRun(w, s, acts + [act]) && After(w, s, acts + [act]) == Act(After(w, s, acts), act)
  {
    hide Possible, Act, Allowed, AllowedRun, After;
    OneStep(w, After(w, s, acts), act);
    RunsCompose(w, s, acts, [act]);
  }

  lemma StartStep(s: System, k: NamespacedName)
    requires Possible(s, Start(k))
    ensures Act(s, Start(k)) ==
            s.(queue := s.queue - {k}, workers := s.workers[k := if k in s.store.services then Fetched(s.store.services[k]) else Cleaning])
  {
  }

  lemma GiveUpStep(s: System, k: NamespacedName)
    requires Possible(s, GiveUp(k))
    ensures Act(s, GiveUp(k)) == s.(workers := s.workers - {k}, queue := s.queue + {k})
  {
  }

  lemma CleanUpStep(s: System, k: NamespacedName, a: Answers)
    requires Possible(s, CleanUp(k, a))
    ensures var o, t := Cleanup(s.store, k, a), Act(s, CleanUp(k, a));
            t == s.(store := o.store, events := s.events + EventsOf(o.writes), workers := s.workers - {k}, queue := s.queue + (if o.ok then {} else {k}))
  {
    hide Cleanup, EventsOf;
  }

  lemma RefreshStep(w: World, s: System, k: NamespacedName, a: Answers)
    ensures AllowedRun(w, s, Refreshing(k, a)) && After(w, s, Refreshing(k, a)) == s.(optedIn := Refresh(s.optedIn, k.namespace, a))
  {
    if ListServicesCache !in a.failing { OneStep(w, s, RefreshCache(k.namespace, a.refreshed)); }
  }

  // ---------- The branches ----------

  lemma UnreadAttempt(w: World, s: System, k: NamespacedName, a: Answers)
    requires Ready(s, k, a) && GetService in a.failing
    ensures AllowedRun(w, s, Attempt(s, k, a)) && Reconciled(s, After(w, s, Attempt(s, k, a)), k, a)
  {
    hide Possible, Act, Allowed, AllowedRun, After, Refreshing;
    CanStart(w, s, k);
    OneStep(w, s, Start(k));
    StartStep(s, k);
    var t := Act(s, Start(k));
    CanGiveUp(w, t, k);
    NextStep(w, s, [Start(k)], GiveUp(k));
    GiveUpStep(t, k);
    assert [Start(k)] + [GiveUp(k)] == [Start(k), GiveUp(k)];
    RefreshStep(w, Act(t, GiveUp(k)), k, a);
    RunsCompose(w, s, [Start(k), GiveUp(k)], Refreshing(k, a));
    SetAndDrop(s.workers, k, t.workers[k], Cleaning);
  }

  lemma CanStart(w: World, s: System, k: NamespacedName)
    requires k in s.queue && k !in s.workers
    ensures Possible(s, Start(k)) && Allowed(w, s, Start(k))
  {
  }

  lemma CanGiveUp(w: World, s: System, k: NamespacedName)
    requires k in s.workers
    ensures Possible(s, GiveUp(k)) && Allowed(w, s, GiveUp(k))
  {
  }

  lemma CanCleanUp(w: World, s: System, k: NamespacedName, a: Answers)
    requires k in s.workers && s.workers[k].Cleaning?
    ensures Possible(s, CleanUp(k, a)) && Allowed(w, s, CleanUp(k, a))
  {
  }

  lemma CanNote(w: World, s: System, k: NamespacedName)
    requires k in s.workers && s.workers[k].Fetched?
    ensures Possible(s, Note(k)) && Allowed(w, s, Note(k))
  {
  }

  lemma MissingAttempt(w: World, s: System, k: NamespacedName, a: Answers)
    requires Ready(s, k, a) && GetService !in a.failing && k !in s.store.services
    ensures AllowedRun(w, s, Attempt(s, k, a)) && Reconciled(s, After(w, s, Attempt(s, k, a)), k, a)
  {
    hide Possible, Act, Allowed, AllowedRun, After, Refreshing, Cleanup, EventsOf;
    CanStart(w, s, k);
    OneStep(w, s, Start(k));
    StartStep(s, k);
    var t := Act(s, Start(k));
    RefreshStep(w, t, k, a);
    RunsCompose(w, s, [Start(k)], Refreshing(k, a));
    var u := After(w, t, Refreshing(k, a));
    CanCleanUp(w, u, k, a);
    NextStep(w, s, [Start(k)] + Refreshing(k, a), CleanUp(k, a));
    CleanUpStep(u, k, a);
    SetAndDrop(s.workers, k, Cleaning, Cleaning);
  }

  lemma NotedRun(w: World, s: System, k: NamespacedName, a: Answers)
    requires Ready(s, k, a) && k in s.store.services
    ensures var svc := s.store.services[k];
            && AllowedRun(w, s, [Start(k), Note(k)])
            && var t := After(w, s, [Start(k), Note(k)]);
               && t == s.(optedIn := UpdateFor(s.optedIn, svc), workers := t.workers, queue := t.queue)
               && (if !Enabled(svc) then t.workers == s.workers[k := Cleaning] && t.queue == s.queue - {k}
                   else if !ValidNames(k) then t.workers == s.workers && t.queue == s.queue - {k} + {k}
                   else if |svc.selector| == 0 then t.workers == s.workers && t.queue == s.queue - {k}
                   else t.workers == s.workers[k := Noted(svc)] && t.queue == s.queue - {k})
  {
    hide Possible, Act, Allowed, AllowedRun, After, Enabled, UpdateFor;
    CanStart(w, s, k);
    OneStep(w, s, Start(k));
    StartStep(s, k);
    var t := Act(s, Start(k));
    CanNote(w, t, k);
    NextStep(w, s, [Start(k)], Note(k));
    NoteStep(t, k);
    assert [Start(k)] + [Note(k)] == [Start(k), Note(k)];
    SetAndDrop(s.workers, k, t.workers[k], Cleaning);
    SetAndDrop(s.workers, k, t.workers[k], Noted(s.store.services[k]));
  }

  lemma DisabledAttempt(w: World, s: System, k: NamespacedName, a: Answers)
    requires Ready(s, k, a) && GetService !in a.failing && k in s.store.services && !Enabled(s.store.services[k])
    ensures AllowedRun(w, s, Attempt(s, k, a)) && Reconciled(s, After(w, s, Attempt(s, k, a)), k, a)
  {
    hide Possible, Act, Allowed, AllowedRun, After, Enabled, UpdateFor, Cleanup, EventsOf, Route, Choose;
    NotedRun(w, s, k, a);
    var t := After(w, s, [Start(k), Note(k)]);
    CanCleanUp(w, t, k, a);
    NextStep(w, s, [Start(k), Note(k)], CleanUp(k, a));
    CleanUpStep(t, k, a);
    assert [Start(k), Note(k)] + [CleanUp(k, a)] == [Start(k), Note(k), CleanUp(k, a)];
    SetAndDrop(s.workers, k, Cleaning, Cleaning);
  }

  lemma EarlyAttempt(w: World, s: System, k: NamespacedName, a: Answers)
    requires Ready(s, k, a) && GetService !in a.failing && k in s.store.services && Enabled(s.store.services[k])
    requires !ValidNames(k) || |s.store.services[k].selector| == 0 || ListPods in a.failing
    ensures AllowedRun(w, s, Attempt(s, k, a)) && Reconciled(s, After(w, s, Attempt(s, k, a)), k, a)
  {
    hide Possible, Act, Allowed, AllowedRun, After, Enabled, UpdateFor, Cleanup, EventsOf, Route, Choose;
    var svc := s.store.services[k];
    NotedRun(w, s, k, a);
    if ValidNames(k) && |svc.selector| > 0 {
      var t := After(w, s, [Start(k), Note(k)]);
      CanGiveUp(w, t, k);
      NextStep(w, s, [Start(k), Note(k)], GiveUp(k));
      GiveUpStep(t, k);
      assert [Start(k), Note(k)] + [GiveUp(k)] == [Start(k), Note(k), GiveUp(k)];
      SetAndDrop(s.workers, k, Noted(svc), Cleaning);
    }
    NoEvents();
  }

  lemma NoEvents()
    ensures EventsOf([]) == multiset{}
  {
  }

  // ---------- The attempt that routes ----------

  /** The worker has chosen: everything else is as it was, but for the caches, the queue and the record of the listing. */
  ghost predicate ChosenAt(s: System, t: System, k: NamespacedName, a: Answers)
    requires k in s.store.services
  {
    var svc, (leader, cache) := s.store.services[k], Runs.Chosen(DirectorOf(s), s.store.services[k], a);
    && t.store == s.store && t.events == s.events && t.queue == s.queue - {k} && t.leaderCache == cache && t.optedIn == UpdateFor(s.optedIn, svc)
    && t.workers == s.workers[k := Phase.Chosen(svc, a.listing, leader)]
  }

  lemma ChosenRun(w: World, s: System, k: NamespacedName, a: Answers)
    requires Ready(s, k, a) && k in s.store.services && Source(s.store.services[k]) && ValidNames(k)
    ensures var acts := [Start(k), Note(k), ListPodsOf(k, a.listing), ChooseLeader(k, a)];
            AllowedRun(w, s, acts) && ChosenAt(s, After(w, s, acts), k, a)
  {
    hide LeaderServiceName, Act, AllowedRun, After, UpdateFor, Enabled, IsListing, Runs.Chosen;
    var svc, lists, chooses := s.store.services[k], ListPodsOf(k, a.listing), ChooseLeader(k, a);
    NotedRun(w, s, k, a);
    var t := After(w, s, [Start(k), Note(k)]);
    ListStepOf(w, t, k, a.listing);
    NextStep(w, s, [Start(k), Note(k)], lists);
    var u := Act(t, lists);
    ChooseSteps(u, k, a);
    NextStep(w, s, [Start(k), Note(k)] + [lists], chooses);
    assert [Start(k), Note(k)] + [lists] + [chooses] == [Start(k), Note(k), lists, chooses];
    assert a.(listing := a.listing) == a;
    ChosenReadsStoreAndCache(DirectorOf(s), DirectorOf(u), svc, a);
    SetAndDrop(s.workers, k, Noted(svc), Listed(svc, a.listing));
    SetAndDrop(s.workers, k, Listed(svc, a.listing), Phase.Chosen(svc, a.listing, Runs.Chosen(DirectorOf(s), svc, a).0));
  }

  lemma ListStepOf(w: World, t: System, k: NamespacedName, listing: seq<Pod>)
    requires k in t.workers && t.workers[k].Noted? && IsListing(listing, t.store, t.workers[k].svc)
    ensures Possible(t, ListPodsOf(k, listing)) && Allowed(w, t, ListPodsOf(k, listing))
    ensures var u, svc := Act(t, ListPodsOf(k, listing)), t.workers[k].svc;
            u == t.(workers := t.workers[k := Listed(svc, listing)], snapshots := t.snapshots + {Snapshot(svc, listing)})
  {
    hide IsListing;
  }

  lemma ChosenReadsStoreAndCache(d: Director, e: Director, svc: Service, a: Answers)
    requires e.store == d.store && e.leaderCache == d.leaderCache
    ensures Runs.Chosen(e, svc, a) == Runs.Chosen(d, svc, a)
  {
    hide Choose;
  }

  lemma PublishedRun(w: World, s: System, k: NamespacedName, a: Answers)
    requires Ready(s, k, a) && k in s.store.services && Source(s.store.services[k]) && ValidNames(k)
    ensures var acts := [Start(k), Note(k), ListPodsOf(k, a.listing), ChooseLeader(k, a), PublishService(k, a)];
            var svc, (leader, cache) := s.store.services[k], Runs.Chosen(DirectorOf(s), s.store.services[k], a);
            var o := Publish(s.store, svc, leader, a);
            && AllowedRun(w, s, acts)
            && var t := After(w, s, acts);
               && t.store == o.store && t.events == s.events + EventsOf(o.writes) && t.leaderCache == cache && t.optedIn == UpdateFor(s.optedIn, svc)
               && (if o.ok then t.workers == s.workers[k := Published(svc, a.listing, leader)] && t.queue == s.queue - {k}
                   else t.workers == s.workers && t.queue == s.queue - {k} + {k})
  {
    hide LeaderServiceName, Act, AllowedRun, After, UpdateFor, Source, IsListing, Runs.Chosen, Publish, EventsOf, Ready;
    var acts := [Start(k), Note(k), ListPodsOf(k, a.listing), ChooseLeader(k, a)];
    ChosenRun(w, s, k, a);
    var t := After(w, s, acts);
    ReadyFacts(s, k, a);
    PublishSteps(t, k, a);
    NextStep(w, s, acts, PublishService(k, a));
    assert acts + [PublishService(k, a)] == [Start(k), Note(k), ListPodsOf(k, a.listing), ChooseLeader(k, a), PublishService(k, a)];
    SetAndDrop(s.workers, k, t.workers[k], Published(s.store.services[k], a.listing, Runs.Chosen(DirectorOf(s), s.store.services[k], a).0));
  }

  lemma ReadyFacts(s: System, k: NamespacedName, a: Answers)
    requires Ready(s, k, a)
    ensures k in s.queue && k !in s.workers
  {
  }

  lemma ReadOutcome(s: System, k: NamespacedName, a: Answers)
    requires Possible(s, ReadSlice(k, a))
    ensures var p, t := s.workers[k], Act(s, ReadSlice(k, a));
            if ReadFails(p.svc, p.leader, a) then t == s.(workers := s.workers - {k}, queue := s.queue + {k})
            else t == s.(workers := s.workers[k := SliceRead(p.svc, p.pods, p.leader, Get(s.store.slices, LeaderKey(p.svc)))])
  {
    hide LeaderServiceName, Routed, RoutedPorts;
  }

  lemma ReconcileOfSource(d: Director, k: NamespacedName, a: Answers)
    requires k in d.store.services && Source(d.store.services[k]) && ValidNames(k) && GetService !in a.failing && ListPods !in a.failing
    ensures var svc, (leader, cache) := d.store.services[k], Runs.Chosen(d, d.store.services[k], a);
            var o := Route(d.store, svc, leader, a);
            Reconcile(d, k, a) == Reconciling.Reconciled(Director(o.store, cache, UpdateFor(d.optedIn, svc)), o.writes, o.ok)
  {
    hide Route, Choose, UpdateFor, Enabled, Cleanup, ApplyWrites;
  }

  lemma UnreadSliceAttempt(w: World, s: System, k: NamespacedName, a: Answers)
    requires Ready(s, k, a) && k in s.store.services && Source(s.store.services[k]) && ValidNames(k)
    requires GetService !in a.failing && ListPods !in a.failing
    requires var leader := Runs.Chosen(DirectorOf(s), s.store.services[k], a).0;
             Publish(s.store, s.store.services[k], leader, a).ok && ReadFails(s.store.services[k], leader, a)
    ensures AllowedRun(w, s, Attempt(s, k, a)) && Reconciled(s, After(w, s, Attempt(s, k, a)), k, a)
  {
    hide LeaderServiceName, Act, AllowedRun, After, UpdateFor, IsListing, Runs.Chosen, Publish, EventsOf, Ready, WriteSlice, Reconcile,
      Routed, RoutedPorts, SendSlice, BodyFor, ReadFails, Enabled;
    var svc, leader := s.store.services[k], Runs.Chosen(DirectorOf(s), s.store.services[k], a).0;
    var acts := [Start(k), Note(k), ListPodsOf(k, a.listing), ChooseLeader(k, a), PublishService(k, a)];
    PublishedRun(w, s, k, a);
    ReadyFacts(s, k, a);
    ReconcileOfSource(DirectorOf(s), k, a);
    var t := After(w, s, acts);
    ReadOutcome(t, k, a);
    NextStep(w, s, acts, ReadSlice(k, a));
    SetAndDrop(s.workers, k, t.workers[k], Cleaning);
    ReadFailureFails(t.store, svc, leader, a);
    assert Publish(s.store, svc, leader, a).writes + [] == Publish(s.store, svc, leader, a).writes;
    assert acts + [ReadSlice(k, a)] == Attempt(s, k, a);
  }

  lemma PatchedAttempt(w: World, s: System, k: NamespacedName, a: Answers)
    requires Ready(s, k, a) && k in s.store.services && Source(s.store.services[k]) && ValidNames(k)
    requires GetService !in a.failing && ListPods !in a.failing
    requires var leader := Runs.Chosen(DirectorOf(s), s.store.services[k], a).0;
             Publish(s.store, s.store.services[k], leader, a).ok && !ReadFails(s.store.services[k], leader, a)
    ensures AllowedRun(w, s, Attempt(s, k, a)) && Reconciled(s, After(w, s, Attempt(s, k, a)), k, a)
  {
    hide LeaderServiceName, Act, AllowedRun, After, UpdateFor, IsListing, Runs.Chosen, Publish, EventsOf, Ready, WriteSlice, Reconcile,
      Routed, RoutedPorts, SendSlice, BodyFor, ReadFails, Enabled;
    var svc, leader := s.store.services[k], Runs.Chosen(DirectorOf(s), s.store.services[k], a).0;
    var acts := [Start(k), Note(k), ListPodsOf(k, a.listing), ChooseLeader(k, a), PublishService(k, a)];
    PublishedRun(w, s, k, a);
    ReadyFacts(s, k, a);
    ReconcileOfSource(DirectorOf(s), k, a);
    var t := After(w, s, acts);
    ReadOutcome(t, k, a);
    NextStep(w, s, acts, ReadSlice(k, a));
    var u := Act(t, ReadSlice(k, a));
    SetAndDrop(s.workers, k, t.workers[k], SliceRead(svc, a.listing, leader, Get(t.store.slices, LeaderKey(svc))));
    PatchSteps(u, k, a);
    NextStep(w, s, acts + [ReadSlice(k, a)], Action.PatchSlice(k, a));
    assert acts + [ReadSlice(k, a)] + [Action.PatchSlice(k, a)] == Attempt(s, k, a);
    SetAndDrop(s.workers, k, u.workers[k], Cleaning);
    ReadSuccess(svc, leader, a);
    ReadThenSendIsWriteSlice(t.store, svc, leader, a);
    EventsAddUp(Publish(s.store, svc, leader, a).writes, WriteSlice(t.store, svc, Routed(svc, leader), RoutedPorts(svc, leader), a).writes);
  }

  lemma RoutedAttempt(w: World, s: System, k: NamespacedName, a: Answers)
    requires Ready(s, k, a) && k in s.store.services && Source(s.store.services[k]) && ValidNames(k)
    requires GetService !in a.failing && ListPods !in a.failing
    ensures AllowedRun(w, s, Attempt(s, k, a)) && Reconciled(s, After(w, s, Attempt(s, k, a)), k, a)
  {
    hide LeaderServiceName, Act, AllowedRun, After, UpdateFor, IsListing, Runs.Chosen, Publish, EventsOf, Ready, WriteSlice, Reconcile,
      Routed, RoutedPorts, SendSlice, BodyFor, ReadFails, Enabled;
    var svc, leader := s.store.services[k], Runs.Chosen(DirectorOf(s), s.store.services[k], a).0;
    var acts := [Start(k), Note(k), ListPodsOf(k, a.listing), ChooseLeader(k, a), PublishService(k, a)];
    PublishedRun(w, s, k, a);
    ReadyFacts(s, k, a);
    ReconcileOfSource(DirectorOf(s), k, a);
    if Publish(s.store, svc, leader, a).ok {
      if ReadFails(svc, leader, a) { UnreadSliceAttempt(w, s, k, a); } else { PatchedAttempt(w, s, k, a); }
    } else {
      assert acts == Attempt(s, k, a);
    }
  }

  lemma ReadFailureFails(store: Store, svc: Service, leader: Option<Pod>, a: Answers)
    requires ReadFails(svc, leader, a)
    ensures WriteSlice(store, svc, Routed(svc, leader), RoutedPorts(svc, leader), a) == Fail(store)
  {
    hide LeaderServiceName, Routed, RoutedPorts, LeaderBody, SliceLabels;
  }

  lemma ReadSuccess(svc: Service, leader: Option<Pod>, a: Answers)
    requires !ReadFails(svc, leader, a)
    ensures (RoutedPorts(svc, leader) != [] || Routed(svc, leader).None?) && GetSliceReconcile !in a.failing
  {
    hide Routed, RoutedPorts;
  }

  /**
   The two models agree. A worker that nothing interrupts, whichever of its calls fail, leaves the
   store, both caches and the announced changes as the reconcile does, and its request is back on
   the queue exactly if the reconcile reports an error.
   */
  lemma UninterruptedAttemptIsReconcile(w: World, s: System, k: NamespacedName, a: Answers)
    requires Ready(s, k, a)
    ensures AllowedRun(w, s, Attempt(s, k, a)) && Reconciled(s, After(w, s, Attempt(s, k, a)), k, a)
  {
    hide Possible, Act, Allowed, AllowedRun, After, Enabled, Attempt, Reconciled, Ready;
    if GetService in a.failing {
      UnreadAttempt(w, s, k, a);
    } else if k !in s.store.services {
      MissingAttempt(w, s, k, a);
    } else if !Enabled(s.store.services[k]) {
      DisabledAttempt(w, s, k, a);
    } else if Source(s.store.services[k]) && ValidNames(k) && ListPods !in a.failing {
      RoutedAttempt(w, s, k, a);
    } else {
      EarlyAttempt(w, s, k, a);
    }
  }
}
