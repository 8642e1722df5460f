/**
 A loss of readiness between List and write, step by step: the worker lists a pod that is Ready long
 enough, the pod loses readiness, and the patch makes it the leader all the same, at once.
 */
module OverlookedLoss {
  import opened Wrappers
  import opened Kube
  import opened Selection
  import opened Routing
  import opened OptedIn
  import opened Reconciling
  import opened Runs
  import opened Watches
  import opened Interleaving
  import opened Provenance
  import opened FlapDamping
  import opened SharedSlices

  // ---------- A run with a clock that stands still ----------

  ghost function RunMoments(w: World, s: System, acts: seq<Action>, time: Time): (r: seq<Moment>)
    requires AllowedRun(w, s, acts)
    ensures |r| == |acts| + 1 && r[0] == Moment(s, time) && forall i :: 0 <= i < |r| ==> r[i].time == time
    decreases |acts|
  {
    if acts == [] then [Moment(s, time)] else [Moment(s, time)] + RunMoments(w, Act(s, acts[0]), acts[1..], time)
  }

  predicate ChoosesAt(acts: seq<Action>, time: Time) {
    forall i :: 0 <= i < |acts| && acts[i].ChooseLeader? ==> acts[i].answers.now == time
  }

  lemma {:induction false} MomentsFollow(w: World, s: System, acts: seq<Action>, time: Time, i: nat)
    requires AllowedRun(w, s, acts) && ChoosesAt(acts, time) && i < |acts|
    ensures var r := RunMoments(w, s, acts, time); Follows(w, r[i], acts[i], r[i + 1])
    decreases |acts|
  {
    hide Possible, Act, Allowed;
    if i > 0 { MomentsFollow(w, Act(s, acts[0]), acts[1..], time, i - 1); }
  }

  lemma {:induction false} MomentIsAfter(w: World, s: System, acts: seq<Action>, more: seq<Action>, time: Time)
    requires AllowedRun(w, s, acts) && AllowedRun(w, s, acts + more)
    ensures RunMoments(w, s, acts + more, time)[|acts|].system == After(w, s, acts)
    decreases |acts|
  {
    hide Possible, Act, Allowed;
    if acts != [] {
      assert (acts + more)[1..] == acts[1..] + more;
      MomentIsAfter(w, Act(s, acts[0]), acts[1..], more, time);
    }
  }

  lemma RunIsTimed(w: World, s: System, acts: seq<Action>, time: Time)
    requires AllowedRun(w, s, acts) && ChoosesAt(acts, time)
    requires s.workers == map[] && NamesHeld(w, s) && PodsOf(w, s.store.pods) && AllSourced(s)
    ensures Timed(w, RunMoments(w, s, acts, time), acts)
  {
    hide AllowedRun, RunMoments, Follows, NamesHeld, PodsOf, AllSourced;
    var r := RunMoments(w, s, acts, time);
    forall i | 0 <= i < |acts| ensures Follows(w, r[i], acts[i], r[i + 1]) {
      MomentsFollow(w, s, acts, time, i);
    }
  }

  // ---------- Nothing happens before the loss ----------

  predicate Approaches(act: Action, k: NamespacedName) {
    (Advances(act) || act.PublishService?) && act.request == k
  }

  lemma ApproachStepKeeps(w: World, s: System, act: Action, k: NamespacedName)
    requires Possible(s, act) && NamesHeld(w, s) && Approaches(act, k) && w.leader(k) != k
    ensures Act(s, act).store.pods == s.store.pods && Get(Act(s, act).store.services, k) == Get(s.store.services, k)
  {
    hide Act, Possible, NamesHeld;
    if act.PublishService? { WorkerWrites(w, s, act); } else { AdvanceMoves(s, act); }
  }

  /** While the worker approaches, the pods and its Service stay, and nobody gains the lead. */
  lemma {:induction false} ApproachKeeps(w: World, moments: seq<Moment>, acts: seq<Action>, k: NamespacedName, uid: UID, m: nat)
    requires Timed(w, moments, acts) && LeaderNamesDistinct(w) && w.leader(k) != k && m <= |acts|
    requires !Leads(w, moments[0], k, uid) && forall i :: 0 <= i < m ==> Approaches(acts[i], k)
    ensures moments[m].system.store.pods == moments[0].system.store.pods
    ensures Get(moments[m].system.store.services, k) == Get(moments[0].system.store.services, k)
    ensures !Leads(w, moments[m], k, uid)
  {
    hide Possible, Act, Allowed, NamesHeld, PodsOf, AllSourced, Leads;
    if m > 0 {
      ApproachKeeps(w, moments, acts, k, uid, m - 1);
      RunKeepsNames(w, moments, acts, m - 1);
      assert Follows(w, moments[m - 1], acts[m - 1], moments[m]);
      ApproachStepKeeps(w, moments[m - 1].system, acts[m - 1], k);
      if Leads(w, moments[m], k, uid) { GainIsOwnPatch(w, moments[m - 1], acts[m - 1], moments[m], k, uid); }
    }
  }

  // ---------- The loss ----------

  function Lost(p: Pod): Pod {
    p.(conditions := [])
  }

  function WithLoss(k: NamespacedName, listing: seq<Pod>, p: Pod, a: Answers): seq<Action> {
    Approach(k, listing, a) + [ChangePod(p.key, Some(Lost(p)))] + [Action.PatchSlice(k, a)]
  }

  /** A source whose slice has no target waits for a reconcile that will choose p. */
  ghost predicate WillLead(w: World, s: System, k: NamespacedName, listing: seq<Pod>, p: Pod, a: Answers) {
    && s.workers == map[] && NamesHeld(w, s) && PodsOf(w, s.store.pods) && AllSourced(s) && LeaderNamesDistinct(w)
    && Waiting(s, k) && IsListing(listing, s.store, s.store.services[k]) && a.failing == {}
    && LeaderKey(s.store.services[k]) == w.leader(k) && w.leader(k) in s.store.slices && Target(s.store.slices[w.leader(k)]).None?
    && WillChoose(s, k, listing, a) == Some(p) && p in listing && Resolvable(s.store.services[k].ports, Some(p)) && Addressed(Some(p))
  }

  lemma LateRun(w: World, s: System, k: NamespacedName, listing: seq<Pod>, p: Pod, a: Answers)
    requires WillLead(w, s, k, listing, p, a)
    ensures var acts := Approach(k, listing, a) + [ChangePod(p.key, Some(Lost(p)))];
            && AllowedRun(w, s, acts) && AllowedRun(w, s, WithLoss(k, listing, p, a))
            && After(w, s, acts).store.pods == s.store.pods[p.key := Lost(p)]
            && After(w, s, WithLoss(k, listing, p, a)).store.pods == s.store.pods[p.key := Lost(p)]
            && w.leader(k) in After(w, s, WithLoss(k, listing, p, a)).store.slices
            && Target(After(w, s, WithLoss(k, listing, p, a)).store.slices[w.leader(k)]) == Some(TargetRef("Pod", p.key, p.uid))
  {
    hide LeaderServiceName, Possible, Act, NamesHeld, AllSourced, WillChoose, Approach, AllowedRun, After, BodyFor, Resolvable, Source, Target, Matches;
    var svc := s.store.services[k];
    ApproachGetsThere(w, s, k, listing, a);
    var t := After(w, s, Approach(k, listing, a));
    var lost, patch := ChangePod(p.key, Some(Lost(p))), Action.PatchSlice(k, a);
    LossStep(w, t, p);
    var u := Act(t, lost);
    EmptyRun(w, u);
    FirstStep(w, t, lost, []);
    assert [lost] + [] == [lost];
    RunsCompose(w, s, Approach(k, listing, a), [lost]);
    PatchGains(w, u, k, a);
    EmptyRun(w, Act(u, patch));
    FirstStep(w, u, patch, []);
    assert [patch] + [] == [patch];
    RunsCompose(w, s, Approach(k, listing, a) + [lost], [patch]);
    TargetOfBody(After(w, s, WithLoss(k, listing, p, a)).store.slices[w.leader(k)], svc, p);
  }

  lemma EmptyRun(w: World, s: System)
    ensures AllowedRun(w, s, []) && After(w, s, []) == s
  {
  }

  lemma LossStep(w: World, t: System, p: Pod)
    requires p.uid != "" && w.home(p.uid) == p.key
    ensures var lost := ChangePod(p.key, Some(Lost(p)));
            && Possible(t, lost) && Allowed(w, t, lost)
            && Act(t, lost).store == t.store.(pods := t.store.pods[p.key := Lost(p)]) && Act(t, lost).workers == t.workers
  {
    hide PodEvents;
  }

  /** The patch of a worker that holds the slice as it is stored leaves the body it wants. */
  lemma PatchGains(w: World, u: System, k: NamespacedName, a: Answers)
    requires k in u.workers && u.workers[k].SliceRead? && a.failing == {}
    requires var key := LeaderKey(u.workers[k].svc);
             key in u.store.slices && u.store.slices[key].key == key && u.workers[k].original == Some(u.store.slices[key])
    ensures var patch := Action.PatchSlice(k, a);
            && Possible(u, patch) && Allowed(w, u, patch) && Act(u, patch).store.pods == u.store.pods
            && LeaderKey(u.workers[k].svc) in Act(u, patch).store.slices
            && Act(u, patch).store.slices[LeaderKey(u.workers[k].svc)].body == BodyOf(u, k)
  {
    hide LeaderServiceName, Act, SendSlice, BodyFor;
    var p := u.workers[k];
    PatchSteps(u, k, a);
    SendPatches(u.store, p.svc, p.original, BodyFor(p.svc, p.leader), a);
    SendKeepsPods(u.store, p.svc, p.original, BodyFor(p.svc, p.leader), a);
  }

  lemma SendKeepsPods(store: Store, svc: Service, original: Option<EndpointSlice>, wanted: SliceBody, a: Answers)
    ensures SendSlice(store, svc, original, wanted, a).store.pods == store.pods
  {
    hide LeaderServiceName, SliceLabels, MergePatch;
  }

  lemma TargetOfBody(slice: EndpointSlice, svc: Service, p: Pod)
    requires slice.body == BodyFor(svc, Some(p)) && Resolvable(svc.ports, Some(p)) && Addressed(Some(p))
    ensures Target(slice) == Some(TargetRef("Pod", p.key, p.uid))
  {
    ResolvedPortsOfRouted(svc, Some(p));
  }

  // ---------- The theorem's limit ----------

  lemma TheList(k: NamespacedName, listing: seq<Pod>, p: Pod, a: Answers)
    ensures var acts := WithLoss(k, listing, p, a);
            && |acts| == 8 && acts[6] == ChangePod(p.key, Some(Lost(p))) && acts[7] == Action.PatchSlice(k, a)
            && (forall i :: 0 <= i < 6 ==> Approaches(acts[i], k)) && ChoosesAt(acts, a.now)
            && ListStep(acts, 8, k) == 2
  {
    var acts := WithLoss(k, listing, p, a);
    assert acts == [Start(k), Note(k), ListPodsOf(k, listing), ChooseLeader(k, a), PublishService(k, a), ReadSlice(k, a),
                    ChangePod(p.key, Some(Lost(p))), Action.PatchSlice(k, a)];
    assert ListStep(acts, 3, k) == 2;
    assert ListStep(acts, 5, k) == ListStep(acts, 4, k) == 2;
    assert ListStep(acts, 7, k) == ListStep(acts, 6, k) == 2;
  }

  /** The moments of the run: p is stored as Ready up to the sixth, not from the seventh on, and leads from the eighth. */
  lemma LateMoments(w: World, s: System, k: NamespacedName, listing: seq<Pod>, p: Pod, a: Answers)
    requires WillLead(w, s, k, listing, p, a)
    ensures var acts := WithLoss(k, listing, p, a);
            && AllowedRun(w, s, acts)
            && var r := RunMoments(w, s, acts, a.now);
               && Timed(w, r, acts) && |r| == 9 && |acts| == 8
               && (forall m :: 0 <= m <= 6 ==> r[m].system.store.pods == s.store.pods)
               && r[7].system.store.pods == r[8].system.store.pods == s.store.pods[p.key := Lost(p)]
               && (forall m :: 0 <= m <= 7 ==> !Leads(w, r[m], k, p.uid)) && Leads(w, r[8], k, p.uid)
               && (forall m :: 0 <= m <= 8 ==> Get(r[m].system.store.services, k) == Get(s.store.services, k))
  {
    hide LeaderServiceName, Possible, Act, Allowed, NamesHeld, PodsOf, AllSourced, WillChoose, WithLoss, AllowedRun, After, RunMoments, Follows,
      Resolvable, Source, IsListing;
    var acts, lost := WithLoss(k, listing, p, a), ChangePod(p.key, Some(Lost(p)));
    LateRun(w, s, k, listing, p, a);
    TheList(k, listing, p, a);
    RunIsTimed(w, s, acts, a.now);
    var r := RunMoments(w, s, acts, a.now);
    PrefixOf(k, listing, p, a);
    MomentIsAfter(w, s, Approach(k, listing, a) + [lost], [Action.PatchSlice(k, a)], a.now);
    assert acts + [] == acts;
    MomentIsAfter(w, s, acts, [], a.now);
    assert !Leads(w, r[0], k, p.uid);
    forall m | 0 <= m <= 6
      ensures r[m].system.store.pods == s.store.pods && Get(r[m].system.store.services, k) == Get(s.store.services, k) && !Leads(w, r[m], k, p.uid) {
      ApproachKeeps(w, r, acts, k, p.uid, m);
    }
    LastSteps(w, r, acts, k, p);
  }

  lemma PrefixOf(k: NamespacedName, listing: seq<Pod>, p: Pod, a: Answers)
    ensures WithLoss(k, listing, p, a) == (Approach(k, listing, a) + [ChangePod(p.key, Some(Lost(p)))]) + [Action.PatchSlice(k, a)]
    ensures |Approach(k, listing, a) + [ChangePod(p.key, Some(Lost(p)))]| == 7
  {
  }

  lemma LastSteps(w: World, r: seq<Moment>, acts: seq<Action>, k: NamespacedName, p: Pod)
    requires Timed(w, r, acts) && LeaderNamesDistinct(w) && |acts| == 8 && w.leader(k) != k
    requires acts[6] == ChangePod(p.key, Some(Lost(p))) && acts[7].PatchSlice? && acts[7].request == k
    ensures !Leads(w, r[6], k, p.uid) ==> !Leads(w, r[7], k, p.uid)
    ensures Get(r[8].system.store.services, k) == Get(r[7].system.store.services, k) == Get(r[6].system.store.services, k)
  {
    hide Possible, Allowed, NamesHeld, PodsOf, AllSourced, Leads;
    RunKeepsNames(w, r, acts, 6);
    RunKeepsNames(w, r, acts, 7);
    assert Follows(w, r[6], acts[6], r[7]) && Follows(w, r[7], acts[7], r[8]);
    if !Leads(w, r[6], k, p.uid) && Leads(w, r[7], k, p.uid) { GainIsOwnPatch(w, r[6], acts[6], r[7], k, p.uid); }
    PatchKeepsService(w, r[7].system, acts[7], k);
  }

  lemma PatchKeepsService(w: World, s: System, act: Action, k: NamespacedName)
    requires Possible(s, act) && NamesHeld(w, s) && act.PatchSlice? && act.request == k && w.leader(k) != k
    ensures Get(Act(s, act).store.services, k) == Get(s.store.services, k)
  {
    hide Act, NamesHeld;
    WorkerWrites(w, s, act);
  }

  /**
   Why the spacing needs its condition: in a run that is timed, damped and true in every respect, a
   pod loses readiness after the List and gains the lead the next instant, however large d is, and
   though the attempt takes no time at all.
   */
  lemma LossIsOverlooked(w: World, s: System, k: NamespacedName, listing: seq<Pod>, p: Pod, a: Answers, d: Time)
    requires WillLead(w, s, k, listing, p, a) && s.store.pods == map[p.key := p] && IsPodReady(p)
    requires MinReadyDuration(s.store.services[k]) == d && d > 0
    ensures var acts := WithLoss(k, listing, p, a);
            && AllowedRun(w, s, acts)
            && var moments := RunMoments(w, s, acts, a.now);
               && DampedRun(w, moments, acts, k, d) && Prompt(moments, acts, k, 0)
               && Acquires(w, moments, acts, 8, k, p.uid) && NotReady(w, moments[7], p.uid)
               && ListStep(acts, 8, k) == 2 && moments[8].time - moments[7].time == 0
  {
    hide LeaderServiceName, Possible, Act, Allowed, WithLoss, AllowedRun, RunMoments, Follows, Timed, MinReadyDuration, WillChoose, Resolvable, Source,
      IsListing, NamesHeld, AllSourced, Leads;
    LateMoments(w, s, k, listing, p, a);
    TheList(k, listing, p, a);
    var acts := WithLoss(k, listing, p, a);
    var moments := RunMoments(w, s, acts, a.now);
    assert p.key in s.store.pods && s.store.pods[p.key] == p;
    forall m | 0 <= m < 9 && k in moments[m].system.store.services ensures MinReadyDuration(moments[m].system.store.services[k]) == d {
      assert Get(moments[m].system.store.services, k) == Get(s.store.services, k);
    }
    assert ReadySince(Lost(p).conditions).None? && !ReportsReady(Lost(p)) && ReportsReady(p);
  }
}
