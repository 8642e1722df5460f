/**
 Why two sources must not share a leader Service name. Each worker patches the slice as it read it;
 if the other worker patches in between, the result can route to one pod under the ports of another.
 */
module SharedSlices {
  import opened Wrappers
  import opened Kube
  import opened Selection
  import opened Routing
  import opened OptedIn
  import opened Reconciling
  import opened Runs
  import opened CacheTransparency
  import opened Interleaving
  import opened Provenance

  // ---------- One patch ----------

  /** A patch leaves the body it wants exactly if each field either differs from the original or is already as wanted. */
  lemma PatchIsWantedIff(current: SliceBody, original: SliceBody, wanted: SliceBody)
    ensures MergePatch(current, original, wanted) == wanted <==>
              && (wanted.addressType != original.addressType || current.addressType == wanted.addressType)
              && (wanted.endpoints != original.endpoints || current.endpoints == wanted.endpoints)
              && (wanted.ports != original.ports || current.ports == wanted.ports)
  {
  }

  // ---------- Runs, one step after another ----------

  lemma FirstStep(w: World, s: System, act: Action, rest: seq<Action>)
    requires Possible(s, act) && Allowed(w, s, act) && AllowedRun(w, Act(s, act), rest)
    ensures AllowedRun(w, s, [act] + rest) && After(w, s, [act] + rest) == After(w, Act(s, act), rest)
  {
    hide Possible, Act, Allowed;
    assert ([act] + rest)[1..] == rest;
  }

  lemma {:induction false} RunsCompose(w: World, s: System, acts: seq<Action>, more: seq<Action>)
    requires AllowedRun(w, s, acts) && AllowedRun(w, After(w, s, acts), more)
    ensures AllowedRun(w, s, acts + more) && After(w, s, acts + more) == After(w, After(w, s, acts), more)
    decreases |acts|
  {
    hide Possible, Act, Allowed;
    if acts == [] {
      assert acts + more == more;
    } else {
      RunsCompose(w, Act(s, acts[0]), acts[1..], more);
      assert (acts + more)[1..] == acts[1..] + more;
    }
  }

  // ---------- A worker on its way to the patch ----------

  /** A source of a valid name that waits in the queue, with a port, and objects stored under their own names. */
  ghost predicate Waiting(s: System, k: NamespacedName) {
    && k in s.queue && k !in s.workers && ValidNames(k)
    && k in s.store.services && Source(s.store.services[k]) && s.store.services[k].key == k && |s.store.services[k].ports| > 0
    && LeaderKey(s.store.services[k]) != k
    && (forall j :: j in s.store.services ==> s.store.services[j].key == j)
    && (forall j :: j in s.store.slices ==> s.store.slices[j].key == j)
  }

  /** The pod its worker will choose. */
  function WillChoose(s: System, k: NamespacedName, listing: seq<Pod>, a: Answers): Option<Pod>
    requires k in s.store.services
  {
    Runs.Chosen(Director(s.store, s.leaderCache, s.optedIn), s.store.services[k], a.(listing := listing)).0
  }

  function Approach(k: NamespacedName, listing: seq<Pod>, a: Answers): seq<Action> {
    [Start(k), Note(k), ListPodsOf(k, listing), ChooseLeader(k, a), PublishService(k, a), ReadSlice(k, a)]
  }

  /** How the worker's approach leaves the system. */
  ghost predicate Approached(s: System, t: System, k: NamespacedName, listing: seq<Pod>, leader: Option<Pod>)
    requires k in s.store.services
  {
    var svc := s.store.services[k];
    && t.workers == s.workers[k := SliceRead(svc, listing, leader, Get(s.store.slices, LeaderKey(svc)))]
    && t.store.slices == s.store.slices && OnlyAt(LeaderKey(svc), s.store, t.store)
    && t.queue == s.queue - {k} && t.leaderCache.Some? == s.leaderCache.Some?
    && (s.leaderCache.Some? ==> SameExcept(k, s.leaderCache.value, t.leaderCache.value))
    && (forall j :: j in t.store.services ==> t.store.services[j].key == j)
  }

  /** Fetching, noting and listing, one after another. */
  lemma EarlySteps(s: System, k: NamespacedName, listing: seq<Pod>)
    requires Waiting(s, k)
    ensures var svc := s.store.services[k];
            && Possible(s, Start(k)) && Act(s, Start(k)) == s.(queue := s.queue - {k}, workers := s.workers[k := Fetched(svc)])
            && var s1 := Act(s, Start(k));
               && Possible(s1, Note(k)) && Act(s1, Note(k)) == s1.(optedIn := UpdateFor(s.optedIn, svc), workers := s1.workers[k := Noted(svc)])
               && var s2 := Act(s1, Note(k));
                  && Possible(s2, ListPodsOf(k, listing))
                  && Act(s2, ListPodsOf(k, listing)) ==
                     s2.(workers := s2.workers[k := Listed(svc, listing)], snapshots := s2.snapshots + {Snapshot(svc, listing)})
  {
    hide LeaderServiceName, UpdateFor;
  }

  lemma EarlyApproach(w: World, s: System, k: NamespacedName, listing: seq<Pod>)
    requires Waiting(s, k) && IsListing(listing, s.store, s.store.services[k])
    ensures var svc, acts := s.store.services[k], [Start(k), Note(k), ListPodsOf(k, listing)];
            && AllowedRun(w, s, acts)
            && var t := After(w, s, acts);
               && t.workers == s.workers[k := Listed(svc, listing)] && t.store == s.store && t.queue == s.queue - {k}
               && t.leaderCache == s.leaderCache
  {
    hide LeaderServiceName, Act, Possible, IsListing, Waiting;
    EarlySteps(s, k, listing);
    var m0, m1, m2 := Start(k), Note(k), ListPodsOf(k, listing);
    var s1 := Act(s, m0);
    var s2 := Act(s1, m1);
    FirstStep(w, s2, m2, []);
    FirstStep(w, s1, m1, [m2]);
    FirstStep(w, s, m0, [m1, m2]);
    assert [m0, m1, m2] == [m0] + ([m1] + ([m2] + []));
  }

  lemma LateApproach(w: World, s: System, k: NamespacedName, a: Answers)
    requires k in s.workers && s.workers[k].Listed? && |s.workers[k].svc.ports| > 0 && a.failing == {} && s.workers[k].svc.key == k
    requires Resolvable(s.workers[k].svc.ports, ChosenFrom(s, s.workers[k], a).0)
    requires forall j :: j in s.store.services ==> s.store.services[j].key == j
    requires forall j :: j in s.store.slices ==> s.store.slices[j].key == j
    ensures var p, acts := s.workers[k], [ChooseLeader(k, a), PublishService(k, a), ReadSlice(k, a)];
            && AllowedRun(w, s, acts)
            && var t := After(w, s, acts);
               && t.workers == s.workers[k := SliceRead(p.svc, p.pods, ChosenFrom(s, p, a).0, Get(s.store.slices, LeaderKey(p.svc)))]
               && t.store.slices == s.store.slices && OnlyAt(LeaderKey(p.svc), s.store, t.store) && t.queue == s.queue
               && t.leaderCache == ChosenFrom(s, p, a).1
               && (forall j :: j in t.store.services ==> t.store.services[j].key == j)
  {
    hide LeaderServiceName, Act, ChosenFrom, Publish, Resolvable, RoutedPorts, Routed;
    var p, leader := s.workers[k], ChosenFrom(s, s.workers[k], a).0;
    var m0, m1, m2 := ChooseLeader(k, a), PublishService(k, a), ReadSlice(k, a);
    ChooseSteps(s, k, a);
    var s1 := Act(s, m0);
    PublishSteps(s1, k, a);
    PublishWrites(s1.store, p.svc, leader, a);
    var s2 := Act(s1, m1);
    ReadSteps(s2, k, a);
    FirstStep(w, s2, m2, []);
    FirstStep(w, s1, m1, [m2]);
    FirstStep(w, s, m0, [m1, m2]);
    assert [m0, m1, m2] == [m0] + ([m1] + ([m2] + []));
  }

  lemma ApproachGetsThere(w: World, s: System, k: NamespacedName, listing: seq<Pod>, a: Answers)
    requires Waiting(s, k) && IsListing(listing, s.store, s.store.services[k]) && a.failing == {}
    requires Resolvable(s.store.services[k].ports, WillChoose(s, k, listing, a))
    ensures AllowedRun(w, s, Approach(k, listing, a))
    ensures Approached(s, After(w, s, Approach(k, listing, a)), k, listing, WillChoose(s, k, listing, a))
  {
    hide LeaderServiceName, Act, Runs.Chosen, IsListing, Resolvable, OnlyAt, AllowedRun, After;
    EarlyApproach(w, s, k, listing);
    var m := After(w, s, [Start(k), Note(k), ListPodsOf(k, listing)]);
    ChosenReadsNoOptedIn(s, m, k, listing, a);
    LateApproach(w, m, k, a);
    RunsCompose(w, s, [Start(k), Note(k), ListPodsOf(k, listing)], [ChooseLeader(k, a), PublishService(k, a), ReadSlice(k, a)]);
    assert Approach(k, listing, a) == [Start(k), Note(k), ListPodsOf(k, listing)] + [ChooseLeader(k, a), PublishService(k, a), ReadSlice(k, a)];
    var d, b := Director(s.store, s.leaderCache, s.optedIn), a.(listing := listing);
    if s.leaderCache.Some? { ChosenIsCached(d, s.store.services[k], b); } else { NoCacheStaysOff(d, s.store.services[k], b); }
  }

  lemma ChosenReadsNoOptedIn(s: System, m: System, k: NamespacedName, listing: seq<Pod>, a: Answers)
    requires k in s.store.services && m.store == s.store && m.leaderCache == s.leaderCache
    ensures ChosenFrom(m, Listed(s.store.services[k], listing), a) ==
            Runs.Chosen(Director(s.store, s.leaderCache, s.optedIn), s.store.services[k], a.(listing := listing))
  {
    hide LeaderServiceName, Reconciling.Choose;
  }

  // ---------- Two patches of one slice ----------

  lemma SendPatches(store: Store, svc: Service, original: Option<EndpointSlice>, wanted: SliceBody, a: Answers)
    requires original.Some? && LeaderKey(svc) in store.slices && store.slices[LeaderKey(svc)].key == LeaderKey(svc) && a.failing == {}
    ensures var o, key := SendSlice(store, svc, original, wanted, a), LeaderKey(svc);
            o.ok && o.store.slices == store.slices[key := store.slices[key].(body := MergePatch(store.slices[key].body, original.value.body, wanted))]
  {
    hide LeaderServiceName, MergePatch;
  }

  /** Both workers hold the slice as it is stored. */
  ghost predicate BothHold(s: System, j: NamespacedName, k: NamespacedName) {
    && j != k && j in s.workers && k in s.workers && s.workers[j].SliceRead? && s.workers[k].SliceRead?
    && LeaderKey(s.workers[j].svc) == LeaderKey(s.workers[k].svc) && LeaderKey(s.workers[k].svc) in s.store.slices
    && s.store.slices[LeaderKey(s.workers[k].svc)].key == LeaderKey(s.workers[k].svc)
    && s.workers[j].original == s.workers[k].original == Some(s.store.slices[LeaderKey(s.workers[k].svc)])
  }

  function BodyOf(s: System, k: NamespacedName): SliceBody
    requires k in s.workers && s.workers[k].SliceRead?
  {
    BodyFor(s.workers[k].svc, s.workers[k].leader)
  }

  /** If j patches before k does, the slice ends as k's body merged into j's. */
  lemma TwoPatches(w: World, s: System, j: NamespacedName, k: NamespacedName, a: Answers)
    requires BothHold(s, j, k) && a.failing == {}
    ensures var acts, key := [Action.PatchSlice(j, a), Action.PatchSlice(k, a)], LeaderKey(s.workers[k].svc);
            && AllowedRun(w, s, acts) && key in After(w, s, acts).store.slices
            && After(w, s, acts).store.slices[key].body == MergePatch(BodyOf(s, j), s.store.slices[key].body, BodyOf(s, k))
  {
    hide LeaderServiceName, Act, SendSlice, BodyFor;
    var key, p, q := LeaderKey(s.workers[k].svc), s.workers[j], s.workers[k];
    var m0, m1 := Action.PatchSlice(j, a), Action.PatchSlice(k, a);
    PatchSteps(s, j, a);
    PatchDesk(s, j, a);
    SendPatches(s.store, p.svc, p.original, BodyFor(p.svc, p.leader), a);
    var t := Act(s, m0);
    assert Get(t.workers, k) == Get(s.workers, k);
    assert t.store.slices[key].body == BodyOf(s, j);
    PatchSteps(t, k, a);
    SendPatches(t.store, q.svc, q.original, BodyFor(q.svc, q.leader), a);
    FirstStep(w, t, m1, []);
    FirstStep(w, s, m0, [m1]);
    assert [m0, m1] == [m0] + ([m1] + []);
  }

  lemma PatchDesk(s: System, j: NamespacedName, a: Answers)
    requires Possible(s, Action.PatchSlice(j, a))
    ensures forall k :: k != j ==> Get(Act(s, Action.PatchSlice(j, a)).workers, k) == Get(s.workers, k)
  {
    hide LeaderServiceName, SendSlice, BodyFor, EventsOf;
  }

  // ---------- The whole run ----------

  /** Two sources with one leader name, whose slice exists, both waiting, with pods to choose whose ports resolve. */
  ghost predicate SharesSlice(s: System, j: NamespacedName, k: NamespacedName, one: seq<Pod>, other: seq<Pod>, a: Answers) {
    && j != k && Waiting(s, j) && Waiting(s, k) && a.failing == {}
    && LeaderKey(s.store.services[j]) == LeaderKey(s.store.services[k]) && LeaderKey(s.store.services[k]) in s.store.slices
    && IsListing(one, s.store, s.store.services[j]) && Resolvable(s.store.services[j].ports, WillChoose(s, j, one, a))
    && IsListing(other, s.store, s.store.services[k]) && Resolvable(s.store.services[k].ports, WillChoose(s, k, other, a))
  }

  /** Both workers approach, then j patches, then k. */
  function Race(j: NamespacedName, k: NamespacedName, one: seq<Pod>, other: seq<Pod>, a: Answers): seq<Action> {
    Approach(j, one, a) + Approach(k, other, a) + [Action.PatchSlice(j, a), Action.PatchSlice(k, a)]
  }

  /** A choice depends on the pods, the slices, and the cache entry of the source. */
  lemma ChoosingIsLocal(d: Director, e: Director, svc: Service, a: Answers)
    requires e.store.pods == d.store.pods && e.store.slices == d.store.slices && e.leaderCache.Some? == d.leaderCache.Some?
    requires d.leaderCache.Some? ==> (svc.key in d.leaderCache.value <==> svc.key in e.leaderCache.value)
    requires d.leaderCache.Some? && svc.key in d.leaderCache.value ==> e.leaderCache.value[svc.key] == d.leaderCache.value[svc.key]
    ensures Runs.Chosen(e, svc, a).0 == Runs.Chosen(d, svc, a).0
  {
    hide LeaderServiceName, SelectLeader, Healthy, ReferencedPod;
    if LeaderKey(svc) in d.store.slices { ReferencesAreLocal(d.store, e.store, d.store.slices[LeaderKey(svc)].body.endpoints, a.failing, 0); }
  }

  lemma {:induction false} ReferencesAreLocal(store: Store, other: Store, endpoints: seq<Endpoint>, failing: set<Call>, i: nat)
    requires i <= |endpoints| && other.pods == store.pods
    ensures ReferencedPod(other, endpoints, failing, i) == ReferencedPod(store, endpoints, failing, i)
    decreases |endpoints| - i
  {
    if i < |endpoints| { ReferencesAreLocal(store, other, endpoints, failing, i + 1); }
  }

  lemma OtherStillWaits(s: System, t: System, j: NamespacedName, k: NamespacedName, one: seq<Pod>, other: seq<Pod>, a: Answers)
    requires SharesSlice(s, j, k, one, other, a) && Approached(s, t, j, one, WillChoose(s, j, one, a))
    ensures Waiting(t, k) && t.store.services[k] == s.store.services[k] && IsListing(other, t.store, t.store.services[k])
    ensures WillChoose(t, k, other, a) == WillChoose(s, k, other, a)
  {
    hide LeaderServiceName, Source, Matches, Runs.Chosen, Resolvable;
    ChoosingIsLocal(Director(s.store, s.leaderCache, s.optedIn), Director(t.store, t.leaderCache, t.optedIn), s.store.services[k], a.(listing := other));
  }

  lemma BothGetThere(w: World, s: System, j: NamespacedName, k: NamespacedName, one: seq<Pod>, other: seq<Pod>, a: Answers)
    requires SharesSlice(s, j, k, one, other, a)
    ensures var acts, key := Approach(j, one, a) + Approach(k, other, a), LeaderKey(s.store.services[k]);
            && AllowedRun(w, s, acts)
            && var t := After(w, s, acts);
               && BothHold(t, j, k) && LeaderKey(t.workers[k].svc) == key && t.store.slices == s.store.slices
               && BodyOf(t, j) == BodyFor(s.store.services[j], WillChoose(s, j, one, a))
               && BodyOf(t, k) == BodyFor(s.store.services[k], WillChoose(s, k, other, a))
  {
    hide LeaderServiceName, Source, IsListing, Runs.Chosen, Resolvable, AllowedRun, After, BodyFor, WillChoose;
    ApproachGetsThere(w, s, j, one, a);
    var t := After(w, s, Approach(j, one, a));
    OtherStillWaits(s, t, j, k, one, other, a);
    ApproachGetsThere(w, t, k, other, a);
    RunsCompose(w, s, Approach(j, one, a), Approach(k, other, a));
  }

  /**
   The race. After a run of the system in which nothing fails, the slice that two sources share is
   what the second worker wanted exactly if each field of its body differs from the slice both had
   read, or is what the first worker wanted too.
   */
  lemma SharedSliceIsWantedIff(w: World, s: System, j: NamespacedName, k: NamespacedName, one: seq<Pod>, other: seq<Pod>, a: Answers)
    requires SharesSlice(s, j, k, one, other, a)
    ensures AllowedRun(w, s, Race(j, k, one, other, a))
    ensures var key := LeaderKey(s.store.services[k]);
            var read, after := s.store.slices[key].body, After(w, s, Race(j, k, one, other, a)).store.slices;
            var first := BodyFor(s.store.services[j], WillChoose(s, j, one, a));
            var second := BodyFor(s.store.services[k], WillChoose(s, k, other, a));
            && key in after && after[key].body == MergePatch(first, read, second)
            && (after[key].body == second <==>
                  && (second.addressType != read.addressType || first.addressType == second.addressType)
                  && (second.endpoints != read.endpoints || first.endpoints == second.endpoints)
                  && (second.ports != read.ports || first.ports == second.ports))
  {
    hide LeaderServiceName, IsListing, Source, Resolvable, AllowedRun, After, BodyFor, WillChoose, Approach, MergePatch;
    BothGetThere(w, s, j, k, one, other, a);
    var acts, key := Approach(j, one, a) + Approach(k, other, a), LeaderKey(s.store.services[k]);
    var t := After(w, s, acts);
    TwoPatches(w, t, j, k, a);
    RunsCompose(w, s, acts, [Action.PatchSlice(j, a), Action.PatchSlice(k, a)]);
    PatchIsWantedIff(BodyOf(t, j), s.store.slices[key].body, BodyOf(t, k));
  }
}
