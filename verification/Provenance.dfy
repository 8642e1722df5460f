/**
 Single-active routing in every reachable state: whatever fails, crashes or changes between a
 worker's API calls, each slice routes to at most one pod, and all it says about that pod comes
 from one List answer.
 */
module Provenance {
  import opened Wrappers
  import opened Kube
  import opened Selection
  import opened Routing
  import opened OptedIn
  import opened Reconciling
  import opened Runs
  import opened Watches
  import opened Interleaving

  /** The endpoint, its reference, the ports and readiness as they follow from this pod. */
  ghost predicate ComesFrom(body: SliceBody, svc: Service, pod: Pod)
    requires |body.endpoints| == 1
  {
    var e := body.endpoints[0];
    && Matches(svc, pod) && IsPodReady(pod)
    && e.addresses == [pod.podIP] && e.ready
    && e.targetRef == Some(TargetRef("Pod", pod.key, pod.uid))
    && e.nodeName == (if pod.nodeName != "" then Some(pod.nodeName) else None)
    && Resolvable(svc.ports, Some(pod))
    && (var ports := ResolvePorts(svc.ports, Some(pod)).value; AllNumbered(ports) && body.ports == EndpointPorts(ports))
  }

  /** One endpoint record; if it has an address, it is the only one, and one pod of one List answer for a source of this slice accounts for the body. */
  ghost predicate FromOneSnapshot(key: NamespacedName, body: SliceBody, snapshots: set<Snapshot>) {
    && |body.endpoints| == 1
    && if body.endpoints[0].addresses == [] then body.endpoints[0].targetRef.None?
       else exists shot, pod :: shot in snapshots && LeaderKey(shot.svc) == key && pod in shot.pods && ComesFrom(body, shot.svc, pod)
  }

  ghost predicate PhaseFromSnapshot(phase: Phase, snapshots: set<Snapshot>) {
    && (!phase.Fetched? && !phase.Cleaning? && !phase.Noted? ==>
          Snapshot(phase.svc, phase.pods) in snapshots && forall p :: p in phase.pods ==> Matches(phase.svc, p))
    && (phase.Chosen? || phase.Published? || phase.SliceRead? ==>
          phase.leader.Some? ==> phase.leader.value in phase.pods && IsPodReady(phase.leader.value))
  }

  ghost predicate AllSourced(s: System) {
    && (forall k :: k in s.store.slices ==> FromOneSnapshot(k, s.store.slices[k].body, s.snapshots))
    && (forall k :: k in s.workers ==> PhaseFromSnapshot(s.workers[k], s.snapshots))
  }

  lemma BodyComesFromLeader(svc: Service, pods: seq<Pod>, leader: Option<Pod>, snapshots: set<Snapshot>)
    requires PhaseFromSnapshot(Published(svc, pods, leader), snapshots)
    ensures FromOneSnapshot(LeaderKey(svc), BodyFor(svc, leader), snapshots)
  {
    ResolvedPortsOfRouted(svc, leader);
    if Addressed(Routed(svc, leader)) {
      assert ComesFrom(BodyFor(svc, leader), Snapshot(svc, pods).svc, leader.value);
    }
  }

  lemma MoreSnapshots(s: System, more: set<Snapshot>)
    requires AllSourced(s) && s.snapshots <= more
    ensures AllSourced(s.(snapshots := more))
  {
    forall k | k in s.store.slices ensures FromOneSnapshot(k, s.store.slices[k].body, more) {
      var body := s.store.slices[k].body;
      if body.endpoints[0].addresses != [] {
        var shot, pod :| shot in s.snapshots && LeaderKey(shot.svc) == k && pod in shot.pods && ComesFrom(body, shot.svc, pod);
      }
    }
  }

  /** A worker's patch of the slice it read is the body it wants, whole: nobody else patched it since. */
  lemma PatchIsWanted(store: Store, svc: Service, original: Option<EndpointSlice>, wanted: SliceBody, a: Answers)
    requires original.Some? && LeaderKey(svc) in store.slices ==> store.slices[LeaderKey(svc)] == original.value
    requires forall k :: k in store.slices ==> store.slices[k].key == k
    ensures var o := SendSlice(store, svc, original, wanted, a);
            forall k :: k in o.store.slices ==>
              || (k in store.slices && o.store.slices[k] == store.slices[k])
              || (k == LeaderKey(svc) && o.store.slices[k].body == wanted)
    ensures var o := SendSlice(store, svc, original, wanted, a);
            o.ok ==> LeaderKey(svc) in o.store.slices && o.store.slices[LeaderKey(svc)].body == wanted
  {
    hide LeaderServiceName, SliceLabels;
  }

  lemma PublishOnlyDropsSlices(store: Store, svc: Service, leader: Option<Pod>, a: Answers)
    requires forall k :: k in store.slices ==> store.slices[k].key == k
    requires forall k :: k in store.services ==> store.services[k].key == k
    ensures forall k :: k in Publish(store, svc, leader, a).store.slices ==>
              k in store.slices && Publish(store, svc, leader, a).store.slices[k] == store.slices[k]
  {
    hide LeaderServiceName, Publish, Resolvable;
    PublishWrites(store, svc, leader, a);
  }

  lemma PatchKeepsProvenance(w: World, s: System, act: Action)
    requires Possible(s, act) && NamesHeld(w, s) && AllSourced(s) && act.PatchSlice?
    ensures AllSourced(Act(s, act))
  {
    hide LeaderServiceName, SendSlice, FromOneSnapshot, BodyFor, Matches, IsPodReady, EventsOf, Enabled;
    var p := s.workers[act.request];
    WorkerLeader(w, s, act.request);
    PatchIsWanted(s.store, p.svc, p.original, BodyFor(p.svc, p.leader), act.answers);
    BodyComesFromLeader(p.svc, p.pods, p.leader, s.snapshots);
  }

  lemma PublishKeepsProvenance(w: World, s: System, act: Action)
    requires Possible(s, act) && NamesHeld(w, s) && AllSourced(s) && (act.PublishService? || act.CleanUp?)
    ensures AllSourced(Act(s, act))
  {
    hide LeaderServiceName, Publish, Cleanup, FromOneSnapshot, Matches, IsPodReady, EventsOf, Enabled, WorkerOf;
    if act.CleanUp? {
      CleanupWrites(s.store, act.request, act.answers);
    } else {
      PublishOnlyDropsSlices(s.store, s.workers[act.request].svc, s.workers[act.request].leader, act.answers);
    }
  }

  /** Where slices and workers only go, provenance stays. */
  lemma FewerKeepProvenance(s: System, t: System)
    requires AllSourced(s) && t.snapshots == s.snapshots
    requires forall k :: k in t.store.slices ==> k in s.store.slices && t.store.slices[k] == s.store.slices[k]
    requires forall k :: k in t.workers ==> k in s.workers && t.workers[k] == s.workers[k]
    ensures AllSourced(t)
  {
    hide FromOneSnapshot, PhaseFromSnapshot;
  }

  lemma OutsideKeepsProvenance(s: System, act: Action)
    requires Possible(s, act) && AllSourced(s)
    requires act.ChangePod? || act.ChangeService? || act.Collect? || act.DeliverEvent? || act.RefreshCache? || act.SweepCache?
             || act.GiveUp? || act.Resync? || act.Crash?
    ensures AllSourced(Act(s, act))
  {
    hide AllSourced, PodEvents, Mapped;
    FewerKeepProvenance(s, Act(s, act));
  }

  lemma AdvanceKeepsProvenance(s: System, act: Action)
    requires Possible(s, act) && AllSourced(s) && (act.Start? || act.Note? || act.ChooseLeader? || act.ReadSlice?)
    ensures AllSourced(Act(s, act))
  {
    hide LeaderServiceName, ChosenFrom, UpdateFor, FromOneSnapshot, Matches, IsPodReady, RoutedPorts, Routed, Enabled;
  }

  lemma ListKeepsProvenance(w: World, s: System, act: Action)
    requires Possible(s, act) && Allowed(w, s, act) && AllSourced(s) && act.ListPodsOf?
    ensures AllSourced(Act(s, act))
  {
    hide FromOneSnapshot, Matches, IsPodReady;
    MoreSnapshots(s, Act(s, act).snapshots);
  }

  /** Every step keeps the provenance. */
  lemma ProvenanceIsInductive(w: World, s: System, act: Action)
    requires Possible(s, act) && Allowed(w, s, act) && NamesHeld(w, s) && AllSourced(s)
    ensures AllSourced(Act(s, act))
  {
    hide AllSourced, Act, Allowed, NamesHeld;
    match act
    case ListPodsOf(_, _) => ListKeepsProvenance(w, s, act);
    case CleanUp(_, _) => PublishKeepsProvenance(w, s, act);
    case PublishService(_, _) => PublishKeepsProvenance(w, s, act);
    case PatchSlice(_, _) => PatchKeepsProvenance(w, s, act);
    case Start(_) => AdvanceKeepsProvenance(s, act);
    case Note(_) => AdvanceKeepsProvenance(s, act);
    case ChooseLeader(_, _) => AdvanceKeepsProvenance(s, act);
    case ReadSlice(_, _) => AdvanceKeepsProvenance(s, act);
    case _ => OutsideKeepsProvenance(s, act);
  }

  ghost predicate AllowedRun(w: World, s: System, acts: seq<Action>)
    decreases |acts|
  {
    acts != [] ==> Possible(s, acts[0]) && Allowed(w, s, acts[0]) && AllowedRun(w, Act(s, acts[0]), acts[1..])
  }

  ghost function After(w: World, s: System, acts: seq<Action>): System
    requires AllowedRun(w, s, acts)
    decreases |acts|
  {
    if acts == [] then s else After(w, Act(s, acts[0]), acts[1..])
  }

  /**
   Single-active provenance: in every state that a run with any failures, any caches, any changes
   in between and any crashes can reach, each slice routes to at most one pod, and its address,
   reference, ports and readiness come from that pod as one List answer showed it.
   */
  lemma {:induction false} EverySliceHasOneSource(w: World, s: System, acts: seq<Action>)
    requires LeaderNamesDistinct(w) && NamesHeld(w, s) && AllSourced(s) && AllowedRun(w, s, acts)
    ensures AllSourced(After(w, s, acts)) && NamesHeld(w, After(w, s, acts))
    decreases |acts|
  {
    if acts != [] {
      NamesAreHeld(w, s, acts[0]);
      ProvenanceIsInductive(w, s, acts[0]);
      EverySliceHasOneSource(w, Act(s, acts[0]), acts[1..]);
    }
  }
}
