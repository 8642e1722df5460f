/**
 The leader-pod cache among interleaved workers. While no worker fails that was leaving another
 target, each entry follows its slice, and no selection whose reads succeed misses a failover.
 */
module CacheFollowing {
  import opened Wrappers
  import opened Kube
  import opened Selection
  import opened OptedIn
  import opened Reconciling
  import opened Runs
  import opened CacheTransparency
  import opened Watches
  import opened Interleaving
  import opened Wakeups

  /** The worker of k has chosen a leader and not yet finished. */
  predicate InHand(s: System, k: NamespacedName) {
    k in s.workers && (s.workers[k].Chosen? || s.workers[k].Published? || s.workers[k].SliceRead?) && s.workers[k].leader.Some?
  }

  /** An entry is the choice of the worker that is about to route to it, else it agrees with the slice. */
  ghost predicate EntryFollows(w: World, s: System, k: NamespacedName)
    requires s.leaderCache.Some? && k in s.leaderCache.value
  {
    var pod := s.leaderCache.value[k].pod;
    && w.home(pod.uid) == pod.key
    && if InHand(s, k) then pod.uid == s.workers[k].leader.value.uid
       else w.leader(k) in s.store.slices && Target(s.store.slices[w.leader(k)]).Some? ==>
              Target(s.store.slices[w.leader(k)]).value.uid == pod.uid
  }

  ghost predicate CacheFollows(w: World, s: System) {
    s.leaderCache.Some? ==> forall k :: k in s.leaderCache.value ==> EntryFollows(w, s, k)
  }

  /** The step ends a worker's attempt with an error. */
  predicate Fails(s: System, act: Action)
    requires Possible(s, act)
  {
    match act
    case PublishService(k, a) => !Publish(s.store, s.workers[k].svc, s.workers[k].leader, a).ok
    case ReadSlice(k, _) => k !in Act(s, act).workers
    case PatchSlice(k, a) => !SendSlice(s.store, s.workers[k].svc, s.workers[k].original, BodyFor(s.workers[k].svc, s.workers[k].leader), a).ok
    case GiveUp(_) => true
    case _ => false
  }

  /** With the cache on, no worker fails that had chosen another pod than its slice routes to; FailedWrites.dfy shows what such a failure does. */
  ghost predicate Tidy(w: World, s: System, act: Action)
    requires Possible(s, act)
  {
    Fails(s, act) && s.leaderCache.Some? && InHand(s, act.request) ==>
      var slices, k := Act(s, act).store.slices, act.request;
      w.leader(k) in slices && Target(slices[w.leader(k)]).Some? ==>
        Target(slices[w.leader(k)]).value.uid == s.workers[k].leader.value.uid
  }

  /** k's entry, its worker's choice and its slice are as they were, or the entry or the slice is gone. */
  ghost predicate SameOrGone(w: World, s: System, t: System, k: NamespacedName)
    requires s.leaderCache.Some? && t.leaderCache.Some? && k in t.leaderCache.value
  {
    && k in s.leaderCache.value && t.leaderCache.value[k] == s.leaderCache.value[k]
    && InHand(t, k) == InHand(s, k) && (InHand(s, k) ==> t.workers[k].leader == s.workers[k].leader)
    && (w.leader(k) in t.store.slices ==>
          w.leader(k) in s.store.slices && t.store.slices[w.leader(k)] == s.store.slices[w.leader(k)])
  }

  lemma EntryStays(w: World, s: System, t: System, k: NamespacedName)
    requires CacheFollows(w, s) && s.leaderCache.Some? && t.leaderCache.Some? && k in t.leaderCache.value
    requires SameOrGone(w, s, t, k)
    ensures EntryFollows(w, t, k)
  {
    assert EntryFollows(w, s, k);
  }

  /** Whatever happens outside the workers, entries and slices stay or go. */
  lemma OutsideKeepsTheCache(w: World, s: System, act: Action)
    requires Possible(s, act) && CacheFollows(w, s) && !OfWorker(act)
    ensures CacheFollows(w, Act(s, act))
  {
    hide PodEvents, Mapped, EntryFollows;
    var t := Act(s, act);
    if t.leaderCache.Some? {
      forall k | k in t.leaderCache.value ensures EntryFollows(w, t, k) { EntryStays(w, s, t, k); }
    }
  }

  predicate Early(act: Action) {
    act.Start? || act.Note? || act.CleanUp? || act.ListPodsOf?
  }

  lemma EarlyDesk(s: System, act: Action)
    requires Possible(s, act) && Early(act)
    ensures Act(s, act).leaderCache == s.leaderCache && !InHand(s, act.request) && !InHand(Act(s, act), act.request)
  {
    match act
    case Start(_) =>
    case Note(_) => hide UpdateFor, Enabled;
    case CleanUp(k, a) => CleanUpDesk(s, k, a); CleanUpEnds(s, k, a);
    case ListPodsOf(_, _) =>
  }

  lemma EarlySlices(w: World, s: System, act: Action)
    requires Possible(s, act) && NamesHeld(w, s) && Early(act)
    ensures Act(s, act).store.slices == s.store.slices
  {
    hide Act, ServicesOf, WorkerOf;
    if act.CleanUp? {
      NamesHeldKeys(w, s);
      CleanUpSlices(s, act);
    } else {
      NoWriteKeepsTheStore(s, act);
    }
  }

  lemma NamesHeldKeys(w: World, s: System)
    requires NamesHeld(w, s)
    ensures forall k :: k in s.store.services ==> s.store.services[k].key == k
  {
  }

  lemma NoWriteKeepsTheStore(s: System, act: Action)
    requires Possible(s, act) && (act.Start? || act.Note? || act.ListPodsOf?)
    ensures Act(s, act).store == s.store
  {
    hide UpdateFor, Enabled;
  }

  /** A worker that has not chosen yet, and does not choose now, touches neither cache nor slices. */
  lemma EarlyStepsKeepTheCache(w: World, s: System, act: Action)
    requires Possible(s, act) && CacheFollows(w, s) && NamesHeld(w, s) && Early(act)
    ensures CacheFollows(w, Act(s, act))
  {
    hide Act, EntryFollows, NamesHeld, Possible;
    var t := Act(s, act);
    EarlyDesk(s, act);
    EarlySlices(w, s, act);
    if t.leaderCache.Some? {
      forall k | k in t.leaderCache.value ensures EntryFollows(w, t, k) {
        if k != act.request {
          if act.CleanUp? { WritersDesk(s, act); } else { AdvancersDesk(s, act, k); }
          assert Get(t.workers, k) == Get(s.workers, k);
        }
        EntryStays(w, s, t, k);
      }
    }
  }

  lemma ChooseKeepsTheCache(w: World, s: System, act: Action)
    requires Possible(s, act) && CacheFollows(w, s) && Sound(w, s) && act.ChooseLeader?
    ensures CacheFollows(w, Act(s, act))
  {
    hide LeaderServiceName, Act, Runs.Chosen, SlicesSound, AllUndamped, Source;
    var t, k, p := Act(s, act), act.request, s.workers[act.request];
    ChooseSteps(s, k, act.answers);
    assert p.svc.key == k by { assert WorkerOf(w, s, k, p); }
    assert WorkerSound(w, p);
    if s.leaderCache.Some? {
      ChosenIsCached(Director(s.store, s.leaderCache, s.optedIn), p.svc, act.answers.(listing := p.pods));
      forall j | j in t.leaderCache.value ensures EntryFollows(w, t, j) {
        if j != k { EntryStays(w, s, t, j); } else { assert k in s.leaderCache.value ==> EntryFollows(w, s, k); }
      }
    } else {
      NoCacheStaysOff(Director(s.store, s.leaderCache, s.optedIn), p.svc, act.answers.(listing := p.pods));
    }
  }

  predicate Late(act: Action) {
    act.PublishService? || act.ReadSlice? || act.PatchSlice? || act.GiveUp?
  }

  lemma LateOthersStay(w: World, s: System, act: Action, j: NamespacedName)
    requires LeaderNamesDistinct(w) && Possible(s, act) && Sound(w, s) && Late(act) && j != act.request
    ensures Act(s, act).leaderCache == s.leaderCache
    ensures s.leaderCache.Some? && j in s.leaderCache.value ==> SameOrGone(w, s, Act(s, act), j)
  {
    hide LeaderServiceName, Act, Source, Fails;
    SoundNames(w, s);
    if MayWrite(act) {
      WritersDesk(s, act);
      WorkerWrites(w, s, act);
      assert w.leader(j) != w.leader(act.request);
    } else {
      AdvancersDesk(s, act, j);
    }
  }

  /** After its own failure a worker's entry agrees with the slice: the worker was leaving no other target. */
  lemma FailedEntryFollows(w: World, s: System, act: Action)
    requires Possible(s, act) && CacheFollows(w, s) && Tidy(w, s, act) && Late(act) && Fails(s, act)
    requires s.leaderCache.Some? && act.request in s.leaderCache.value
    requires var t, k := Act(s, act), act.request;
             t.leaderCache == s.leaderCache && k !in t.workers && (!InHand(s, k) ==> SameOrGone(w, s, t, k))
    ensures EntryFollows(w, Act(s, act), act.request)
  {
    hide LeaderServiceName, Act, Fails, SameOrGone;
    assert EntryFollows(w, s, act.request);
    if !InHand(s, act.request) { EntryStays(w, s, Act(s, act), act.request); }
  }

  lemma PublishKeepsTheEntry(w: World, s: System, act: Action)
    requires Possible(s, act) && CacheFollows(w, s) && Sound(w, s) && Tidy(w, s, act) && act.PublishService?
    requires s.leaderCache.Some? && act.request in s.leaderCache.value
    ensures EntryFollows(w, Act(s, act), act.request)
  {
    hide LeaderServiceName, Publish, EventsOf, Tidy, EntryFollows, CacheFollows, SlicesSound, Source;
    var k, p := act.request, s.workers[act.request];
    SoundNames(w, s);
    PublishDrops(s.store, p.svc, p.leader, act.answers);
    if Publish(s.store, p.svc, p.leader, act.answers).ok || !InHand(s, k) { EntryStays(w, s, Act(s, act), k); } else { FailedEntryFollows(w, s, act); }
  }

  lemma ReadKeepsTheEntry(w: World, s: System, act: Action)
    requires Possible(s, act) && CacheFollows(w, s) && Tidy(w, s, act) && (act.ReadSlice? || act.GiveUp?)
    requires s.leaderCache.Some? && act.request in s.leaderCache.value
    ensures EntryFollows(w, Act(s, act), act.request)
  {
    hide LeaderServiceName, Routed, RoutedPorts, Tidy, EntryFollows, CacheFollows;
    var k, t := act.request, Act(s, act);
    if k in t.workers || !InHand(s, k) { EntryStays(w, s, t, k); } else { FailedEntryFollows(w, s, act); }
  }

  lemma PatchKeepsTheEntry(w: World, s: System, act: Action)
    requires Possible(s, act) && CacheFollows(w, s) && Sound(w, s) && Tidy(w, s, act) && act.PatchSlice?
    requires s.leaderCache.Some? && act.request in s.leaderCache.value
    ensures EntryFollows(w, Act(s, act), act.request)
  {
    hide LeaderServiceName, Act, SendSlice, BodyFor, Tidy, CacheFollows, SliceLabels, SliceRequests, SlicesSound, Source, MinReadyDuration;
    var k, p, t := act.request, s.workers[act.request], Act(s, act);
    SoundNames(w, s);
    WorkerLeader(w, s, k);
    PatchSteps(s, k, act.answers);
    PatchDesk(s, k, act.answers);
    assert WorkerOf(w, s, k, p) && WorkerSound(w, p);
    SendSliceBody(s.store, p.svc, p.original, BodyFor(p.svc, p.leader), act.answers);
    EntryOf(w, s, k);
    if SendSlice(s.store, p.svc, p.original, BodyFor(p.svc, p.leader), act.answers).ok {
      BodyForRefersToLeader(w, t.store.slices[w.leader(k)], p.svc, p.leader);
    } else {
      FailedSendChangesNothing(s.store, p.svc, p.original, BodyFor(p.svc, p.leader), act.answers);
      FailedEntryFollows(w, s, act);
    }
  }

  lemma EntryOf(w: World, s: System, k: NamespacedName)
    requires CacheFollows(w, s) && s.leaderCache.Some? && k in s.leaderCache.value
    ensures EntryFollows(w, s, k)
  {
  }

  lemma FailedSendChangesNothing(store: Store, svc: Service, original: Option<EndpointSlice>, wanted: SliceBody, a: Answers)
    requires !SendSlice(store, svc, original, wanted, a).ok
    ensures SendSlice(store, svc, original, wanted, a).store == store
  {
    hide LeaderServiceName, SliceLabels, MergePatch;
  }

  lemma LateStepsKeepTheCache(w: World, s: System, act: Action)
    requires LeaderNamesDistinct(w) && Possible(s, act) && CacheFollows(w, s) && Sound(w, s) && Tidy(w, s, act) && Late(act)
    ensures CacheFollows(w, Act(s, act))
  {
    hide LeaderServiceName, Act, EntryFollows, SameOrGone, Fails, Tidy, Sound;
    var t := Act(s, act);
    LateKeepsCacheItself(s, act);
    if t.leaderCache.Some? {
      forall j | j in t.leaderCache.value ensures EntryFollows(w, t, j) {
        if j != act.request {
          LateOthersStay(w, s, act, j);
          EntryStays(w, s, t, j);
        } else {
          match act
          case PublishService(_, _) => PublishKeepsTheEntry(w, s, act);
          case PatchSlice(_, _) => PatchKeepsTheEntry(w, s, act);
          case _ => ReadKeepsTheEntry(w, s, act);
        }
      }
    }
  }

  lemma LateKeepsCacheItself(s: System, act: Action)
    requires Possible(s, act) && Late(act)
    ensures Act(s, act).leaderCache == s.leaderCache
  {
    hide LeaderServiceName, Routed, RoutedPorts, Publish, SendSlice, BodyFor, EventsOf;
  }

  /** While no failing worker was leaving another target, the cache follows the slices through every step. */
  lemma CacheFollowsIsInductive(w: World, s: System, act: Action)
    requires LeaderNamesDistinct(w) && Possible(s, act) && CacheFollows(w, s) && Sound(w, s) && Tidy(w, s, act)
    ensures CacheFollows(w, Act(s, act))
  {
    hide LeaderServiceName, Act, CacheFollows, Sound, Tidy;
    if !OfWorker(act) {
      OutsideKeepsTheCache(w, s, act);
    } else if Late(act) {
      LateStepsKeepTheCache(w, s, act);
    } else if act.ChooseLeader? {
      ChooseKeepsTheCache(w, s, act);
    } else {
      SoundNames(w, s);
      EarlyStepsKeepTheCache(w, s, act);
    }
  }

  /** Where the cache follows the slices, a worker that has yet to choose finds them in agreement. */
  lemma FollowingAgrees(w: World, s: System, k: NamespacedName)
    requires CacheFollows(w, s) && !InHand(s, k)
    ensures AgreesAt(w, Director(s.store, s.leaderCache, s.optedIn), k)
  {
    if s.leaderCache.Some? && k in s.leaderCache.value { assert EntryFollows(w, s, k); }
  }

  // ---------- No failover is missed ----------

  /** The reads of the current leader succeed, and no failing worker was leaving another target. */
  ghost predicate Careful(w: World, s: System, act: Action)
    requires Possible(s, act)
  {
    Orderly(w, s, act) && Tidy(w, s, act) && (act.ChooseLeader? ==> act.answers.failing !! {GetSlice, GetPod(0)})
  }

  lemma CarefulIsReliable(w: World, s: System, act: Action)
    requires Possible(s, act) && Sound(w, s) && CacheFollows(w, s) && Careful(w, s, act)
    ensures Reliable(w, s, act)
  {
    hide LeaderServiceName, Orderly, Tidy, CacheFollows, Sound, CurrentLeader, Eldest, HeldBySlice, Healthy, CachedPod;
    if act.ChooseLeader? {
      var k := act.request;
      var svc, a := s.workers[k].svc, act.answers.(listing := s.workers[k].pods);
      WorkerFacts(w, s, k);
      FollowingAgrees(w, s, k);
      if FailoverCalled(s.store, svc) { UnreadOrTarget(w, DirectorOf(s), svc, a); }
    }
  }

  lemma WorkerFacts(w: World, s: System, k: NamespacedName)
    requires Sound(w, s) && k in s.workers && s.workers[k].Listed?
    ensures s.workers[k].svc.key == k && LeaderKey(s.workers[k].svc) == w.leader(k) && SlicesOf(w, s.store.slices) && !InHand(s, k)
  {
    assert WorkerOf(w, s, k, s.workers[k]);
  }

  ghost predicate CarefulRun(w: World, s: System, acts: seq<Action>)
    decreases |acts|
  {
    acts != [] ==> Possible(s, acts[0]) && Careful(w, s, acts[0]) && CarefulRun(w, Act(s, acts[0]), acts[1..])
  }

  /** In every careful run, with the cache on or off, no selection misses a failover; so no wakeup is lost. */
  lemma {:induction false} CarefulRunsMissNoFailover(w: World, s: System, acts: seq<Action>)
    requires LeaderNamesDistinct(w) && Sound(w, s) && CacheFollows(w, s) && CarefulRun(w, s, acts)
    ensures ReliableRun(w, s, acts) && CacheFollows(w, Reached(w, s, acts))
    decreases |acts|
  {
    hide LeaderServiceName, Act, Sound, Reliable, Orderly, Tidy, CacheFollows;
    if acts != [] {
      CarefulIsReliable(w, s, acts[0]);
      SoundIsInductive(w, s, acts[0]);
      CacheFollowsIsInductive(w, s, acts[0]);
      CarefulRunsMissNoFailover(w, Act(s, acts[0]), acts[1..]);
    }
  }

  lemma StartFollows(w: World, s: System)
    requires JustStarted(s)
    ensures CacheFollows(w, s)
  {
  }

  /** No wakeup is lost in a careful run from a start. */
  lemma CarefulRunsLoseNoWakeup(w: World, s: System, acts: seq<Action>, k: NamespacedName)
    requires LeaderNamesDistinct(w) && Sound(w, s) && JustStarted(s) && CarefulRun(w, s, acts)
    ensures ReliableRun(w, s, acts)
    ensures var t := Reached(w, s, acts);
            k in t.store.services && Source(t.store.services[k]) && !UpToDate(t, t.store.services[k]) ==>
              Woken(t, k) || (k in t.workers && OnCourse(t, t.store.services[k], t.workers[k]))
  {
    hide LeaderServiceName, Sound, Source, UpToDate, OnCourse, Woken, CacheFollows, ReliableRun, CarefulRun, Reached;
    StartFollows(w, s);
    CarefulRunsMissNoFailover(w, s, acts);
    var t := Reached(w, s, acts);
    if k in t.store.services && Source(t.store.services[k]) { NoLostWakeups(w, s, acts, k); }
  }
}
