/**
 The leader-pod cache is invisible: while API calls succeed, a director with the cache behaves,
 over any run, exactly as one without it.
 */
module CacheTransparency {
  import opened Wrappers
  import opened Kube
  import opened Selection
  import opened OptedIn
  import opened Reconciling
  import opened Runs

  /** API calls succeed, and a routed source has a port: a Service without one fails after the cache is updated. */
  ghost predicate Clean(d: Director, step: Step) {
    step.Reconciles? ==>
      && step.answers.failing == {}
      && (step.request in d.store.services && Source(d.store.services[step.request]) ==>
            |d.store.services[step.request].ports| > 0)
  }

  ghost predicate CleanRun(w: World, d: Director, steps: seq<Step>)
    decreases |steps|
  {
    steps != [] ==>
      Admissible(w, d, steps[0]) && Clean(d, steps[0]) && CleanRun(w, Next(d, steps[0]), steps[1..])
  }

  /** After any selection the cached leader, if there is a cache, is the selected pod. */
  lemma ChooseCachesTheLeader(store: Store, cache: LeaderCache, svc: Service, a: Answers)
    ensures var (leader, after) := Choose(store, cache, svc, a);
            && after.Some? == cache.Some?
            && (cache.Some? ==>
                  && SameExcept(svc.key, cache.value, after.value)
                  && (leader.Some? ==> svc.key in after.value && after.value[svc.key].pod.uid == leader.value.uid)
                  && (svc.key in after.value ==>
                        || (svc.key in cache.value && after.value[svc.key] == cache.value[svc.key])
                        || after.value[svc.key].pod in store.pods.Values || after.value[svc.key].pod in a.listing))
  {
    hide LeaderServiceName, SelectLeader, Healthy;
    var e := if LeaderKey(svc) in store.slices then store.slices[LeaderKey(svc)].body.endpoints else [];
    ReferencedPodIsStored(store, e, a.failing, 0);
  }

  /** A selection that finds no leader caches none: an entry it leaves was there before. */
  lemma ChooseOfNoneCachesNone(store: Store, cache: LeaderCache, svc: Service, a: Answers)
    requires Choose(store, cache, svc, a).0.None? && cache.Some?
    ensures var after := Choose(store, cache, svc, a).1;
            after.Some? && (svc.key in after.value ==> svc.key in cache.value && after.value[svc.key] == cache.value[svc.key])
  {
    hide LeaderServiceName, SelectLeader, Healthy, StickySlice;
  }

  lemma {:induction false} ReferencedPodIsStored(store: Store, endpoints: seq<Endpoint>, failing: set<Call>, i: nat)
    requires i <= |endpoints|
    ensures var r := ReferencedPod(store, endpoints, failing, i); r.Some? ==> r.value in store.pods.Values
    decreases |endpoints| - i
  {
    if i < |endpoints| { ReferencedPodIsStored(store, endpoints, failing, i + 1); }
  }

  lemma AgreementIsInductive(w: World, d: Director, step: Step)
    requires StoreOf(w, d.store) && LeaderNamesDistinct(w) && Admissible(w, d, step) && Clean(d, step)
    requires CacheAgrees(w, d)
    ensures CacheAgrees(w, Next(d, step))
  {
    hide LeaderServiceName, Route, Choose, Enabled, Reconcile, Carries;
    if step.Reconciles? {
      var request, a := step.request, step.answers;
      ReconcileRoutesOrCleans(d, request, a);
      if Routes(d, request, a) {
        var svc := d.store.services[request];
        var chosen := Chosen(d, svc, a).0;
        RouteWrites(d.store, svc, chosen, a);
        BodyRefersToChosen(w, Route(d.store, svc, chosen, a).store.slices[LeaderKey(svc)], svc, chosen);
        ChooseCachesTheLeader(d.store, d.leaderCache, svc, a);
      }
    }
  }

  /** One reconcile selects the same leader and writes the same objects with and without the cache. */
  lemma OneReconcileIsTransparent(w: World, d: Director, u: Director, request: NamespacedName, a: Answers)
    requires StoreOf(w, d.store) && CacheAgrees(w, d) && Clean(d, Reconciles(request, a))
    requires u == d.(leaderCache := None)
    ensures var r, s := Reconcile(d, request, a), Reconcile(u, request, a);
            r.director.(leaderCache := None) == s.director && r.writes == s.writes && r.ok == s.ok
    ensures Routes(d, request, a) ==>
              Chosen(d, d.store.services[request], a).0 == Chosen(u, d.store.services[request], a).0
  {
    hide LeaderServiceName, Route, Choose, Cleanup, UpdateFor, ApplyWrites;
    if Routes(d, request, a) {
      ChooseIsChoice(w, d, d.store.services[request], a);
      ChooseIsChoice(w, u, d.store.services[request], a);
      CurrentLeaderStaysOff(u, d.store.services[request], a);
    }
  }

  lemma CurrentLeaderStaysOff(u: Director, svc: Service, a: Answers)
    requires u.leaderCache == None
    ensures Choose(u.store, None, svc, a).1 == None
  {
  }

  /** The entry of a source after a choice: the chosen pod, or what was there before. */
  lemma ChosenIsCached(d: Director, svc: Service, a: Answers)
    requires d.leaderCache.Some?
    ensures var (leader, after) := Chosen(d, svc, a);
            && after.Some? && SameExcept(svc.key, d.leaderCache.value, after.value)
            && (leader.Some? ==> svc.key in after.value && after.value[svc.key].pod.uid == leader.value.uid)
            && (leader.None? && svc.key in after.value ==>
                  svc.key in d.leaderCache.value && after.value[svc.key] == d.leaderCache.value[svc.key])
            && (svc.key in after.value ==>
                  || (svc.key in d.leaderCache.value && after.value[svc.key] == d.leaderCache.value[svc.key])
                  || after.value[svc.key].pod in d.store.pods.Values || after.value[svc.key].pod in a.listing)
  {
    hide LeaderServiceName, Choose;
    ChooseCachesTheLeader(d.store, d.leaderCache, svc, a);
    if Choose(d.store, d.leaderCache, svc, a).0.None? { ChooseOfNoneCachesNone(d.store, d.leaderCache, svc, a); }
  }

  lemma NoCacheStaysOff(d: Director, svc: Service, a: Answers)
    requires d.leaderCache.None?
    ensures Chosen(d, svc, a).1.None?
  {
    CurrentLeaderStaysOff(d, svc, a);
  }

  /** The leaders a run selects, in order. */
  function Leaders(d: Director, steps: seq<Step>): seq<Option<Pod>>
    decreases |steps|
  {
    if steps == [] then []
    else
      (if steps[0].Reconciles? && Routes(d, steps[0].request, steps[0].answers)
       then [Chosen(d, d.store.services[steps[0].request], steps[0].answers).0] else [])
      + Leaders(Next(d, steps[0]), steps[1..])
  }

  /**
   Cache transparency: whatever expires and whenever the sweep comes, every reconcile of the run
   selects the leader that a director without the cache selects, and the stores stay equal.
   */
  lemma {:induction false} CacheIsTransparent(w: World, d: Director, u: Director, steps: seq<Step>)
    requires StoreOf(w, d.store) && LeaderNamesDistinct(w) && CacheAgrees(w, d) && CleanRun(w, d, steps)
    requires u == d.(leaderCache := None)
    ensures Leaders(d, steps) == Leaders(u, steps)
    ensures Run(d, steps).store == Run(u, steps).store
    ensures StoreOf(w, Run(d, steps).store) && CacheAgrees(w, Run(d, steps))
    decreases |steps|
  {
    if steps != [] {
      var step := steps[0];
      StoreStaysWellFormed(w, d, step);
      AgreementIsInductive(w, d, step);
      if step.Reconciles? { OneReconcileIsTransparent(w, d, u, step.request, step.answers); }
      assert Next(u, step) == Next(d, step).(leaderCache := None);
      CacheIsTransparent(w, Next(d, step), Next(u, step), steps[1..]);
    }
  }
}
