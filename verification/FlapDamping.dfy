/**
 Flap damping over whole runs of the interleaved system: with a minimum ready duration set, a pod
 that lost readiness does not come back as leader before it was Ready that long, unless the loss
 falls between the List of an attempt and its write. However the run goes and whatever fails.
 */
module FlapDamping {
  import opened Wrappers
  import opened Kube
  import opened Selection
  import opened OptedIn
  import opened Reconciling
  import opened Runs
  import opened SteadyState
  import opened Interleaving
  import opened Provenance
  import opened Wakeups

  datatype Moment = Moment(system: System, time: Time)

  /** A run with a clock, from a system without workers: each step takes one moment to the next, and a choice reads the clock in between. */
  ghost predicate Timed(w: World, moments: seq<Moment>, acts: seq<Action>) {
    && |moments| == |acts| + 1
    && moments[0].system.workers == map[] && NamesHeld(w, moments[0].system)
    && PodsOf(w, moments[0].system.store.pods) && AllSourced(moments[0].system)
    && (forall i :: 0 <= i < |acts| ==> Follows(w, moments[i], acts[i], moments[i + 1]))
  }

  ghost predicate Follows(w: World, before: Moment, act: Action, after: Moment) {
    && Possible(before.system, act) && Allowed(w, before.system, act) && after.system == Act(before.system, act)
    && before.time <= after.time && (act.ChooseLeader? ==> before.time <= act.answers.now <= after.time)
  }

  /** The slice of k routes to the pod with this UID. */
  ghost predicate Leads(w: World, m: Moment, k: NamespacedName, uid: UID) {
    var slices := m.system.store.slices;
    w.leader(k) in slices && Target(slices[w.leader(k)]).Some? && Target(slices[w.leader(k)]).value.uid == uid
  }

  /** The last step before i in which the worker of k listed its pods; -1 if there was none. */
  function ListStep(acts: seq<Action>, i: nat, k: NamespacedName): (j: int)
    requires i <= |acts|
    ensures -1 <= j < i && (0 <= j ==> acts[j].ListPodsOf? && acts[j].request == k)
  {
    if i == 0 then -1
    else if acts[i - 1].ListPodsOf? && acts[i - 1].request == k then i - 1
    else ListStep(acts, i - 1, k)
  }

  /** The pod gains the lead at moment i, by an attempt throughout which it did not have it. */
  ghost predicate Acquires(w: World, moments: seq<Moment>, acts: seq<Action>, i: nat, k: NamespacedName, uid: UID) {
    && 0 < i < |moments| == |acts| + 1 && Leads(w, moments[i], k, uid) && !Leads(w, moments[i - 1], k, uid)
    && forall m :: 0 <= m < i && ListStep(acts, i, k) <= m ==> !Leads(w, moments[m], k, uid)
  }

  ghost predicate NotReady(w: World, m: Moment, uid: UID) {
    var pods := m.system.store.pods;
    w.home(uid) in pods && pods[w.home(uid)].uid == uid && !ReportsReady(pods[w.home(uid)])
  }

  /** Transition times are true: a pod that is not Ready at one moment never claims later to have been Ready since before. */
  ghost predicate TrueTransitions(w: World, moments: seq<Moment>) {
    forall i, j, k :: 0 <= i <= j < |moments| && k in moments[j].system.store.pods
                      && NotReady(w, moments[i], moments[j].system.store.pods[k].uid) ==>
      var since := ReadySince(moments[j].system.store.pods[k].conditions);
      since.Some? ==> since.value >= moments[i].time
  }

  ghost predicate Damped(moments: seq<Moment>, k: NamespacedName, d: Time) {
    forall i :: 0 <= i < |moments| && k in moments[i].system.store.services ==>
      MinReadyDuration(moments[i].system.store.services[k]) == d
  }

  // ---------- The history of a worker ----------

  predicate HasListed(phase: Phase) {
    phase.Listed? || phase.Chosen? || phase.Published? || phase.SliceRead?
  }

  /** The leader was the eldest eligible pod of its listing at some time since the List, or led at some moment since. */
  ghost predicate ChosenSince(w: World, moments: seq<Moment>, j: nat, i: nat, k: NamespacedName, pods: seq<Pod>, leader: Pod, d: Time)
    requires j <= i < |moments|
  {
    || (exists now :: moments[j].time <= now <= moments[i].time && Eldest(pods, d, now) == Some(leader))
    || (exists m :: j <= m < i && Leads(w, moments[m], k, leader.uid))
  }

  /** Where the worker of k has its Service, its pods and its leader from. */
  ghost predicate HistoryAt(w: World, moments: seq<Moment>, acts: seq<Action>, i: nat, k: NamespacedName, d: Time)
    requires i < |moments| == |acts| + 1
  {
    k in moments[i].system.workers ==>
      var phase := moments[i].system.workers[k];
      && (!phase.Cleaning? ==> MinReadyDuration(phase.svc) == d)
      && (HasListed(phase) ==>
            var j := ListStep(acts, i, k);
            && 0 <= j && acts[j] == ListPodsOf(k, phase.pods) && IsListing(phase.pods, moments[j].system.store, phase.svc)
            && (forall m :: j < m <= i ==> k in moments[m].system.workers)
            && (!phase.Listed? && phase.leader.Some? ==>
                  phase.leader.value in phase.pods && ChosenSince(w, moments, j, i, k, phase.pods, phase.leader.value, d)))
  }

  lemma {:induction false} TimesAreMonotone(w: World, moments: seq<Moment>, acts: seq<Action>, i: nat, j: nat)
    requires Timed(w, moments, acts) && i <= j < |moments|
    ensures moments[i].time <= moments[j].time
    decreases j
  {
    hide Possible, Act, Allowed, NamesHeld, PodsOf, AllSourced;
    if i < j {
      TimesAreMonotone(w, moments, acts, i, j - 1);
      assert Follows(w, moments[j - 1], acts[j - 1], moments[j]);
    }
  }

  lemma {:induction false} RunKeepsNames(w: World, moments: seq<Moment>, acts: seq<Action>, i: nat)
    requires Timed(w, moments, acts) && LeaderNamesDistinct(w) && i < |moments|
    ensures NamesHeld(w, moments[i].system) && AllSourced(moments[i].system)
  {
    hide Possible, Act, Allowed, NamesHeld, PodsOf, AllSourced;
    if i > 0 {
      RunKeepsNames(w, moments, acts, i - 1);
      assert Follows(w, moments[i - 1], acts[i - 1], moments[i]);
      NamesAreHeld(w, moments[i - 1].system, acts[i - 1]);
      ProvenanceIsInductive(w, moments[i - 1].system, acts[i - 1]);
    }
  }

  predicate ByWorkerOf(act: Action, k: NamespacedName) {
    OfWorker(act) && act.request == k
  }

  /** A step that is not the worker's own leaves it where it is, or ends it. */
  lemma OthersKeepPhase(s: System, act: Action, k: NamespacedName)
    requires Possible(s, act) && !ByWorkerOf(act, k)
    ensures k in Act(s, act).workers ==> k in s.workers && Act(s, act).workers[k] == s.workers[k]
  {
    if OfWorker(act) {
      hide Act, Possible;
      if MayWrite(act) { WritersDesk(s, act); } else { AdvancersDesk(s, act, k); }
      assert Get(Act(s, act).workers, k) == Get(s.workers, k);
    } else {
      hide PodEvents, Mapped, Sweep;
    }
  }

  /** How its own steps move a worker. */
  lemma OwnPhase(s: System, act: Action, k: NamespacedName)
    requires Possible(s, act) && ByWorkerOf(act, k)
    ensures k in Act(s, act).workers ==>
              var after := Act(s, act).workers[k];
              match act
              case Start(_) => after.Cleaning? || (k in s.store.services && after == Fetched(s.store.services[k]))
              case Note(_) => after.Cleaning? || after == Noted(s.workers[k].svc)
              case ListPodsOf(_, listing) => after == Listed(s.workers[k].svc, listing)
              case ChooseLeader(_, a) => after == Phase.Chosen(s.workers[k].svc, s.workers[k].pods, ChosenFrom(s, s.workers[k], a).0)
              case PublishService(_, _) => after == Published(s.workers[k].svc, s.workers[k].pods, s.workers[k].leader)
              case ReadSlice(_, _) =>
                after.SliceRead? && after.svc == s.workers[k].svc && after.pods == s.workers[k].pods && after.leader == s.workers[k].leader
              case _ => false
  {
    match act
    case Start(_) =>
    case Note(_) => hide UpdateFor, Enabled;
    case CleanUp(_, a) => CleanUpEnds(s, k, a);
    case ListPodsOf(_, _) =>
    case ChooseLeader(_, a) => hide Act; ChooseSteps(s, k, a);
    case PublishService(_, a) => hide Act; PublishSteps(s, k, a);
    case ReadSlice(_, _) => hide LeaderServiceName, Routed, RoutedPorts;
    case PatchSlice(_, a) => hide Act; PatchSteps(s, k, a);
    case GiveUp(_) =>
  }

  lemma ChosenIsStickyOrEligible(d: Director, svc: Service, a: Answers)
    ensures var r := Runs.Chosen(d, svc, a).0;
            r.Some? ==>
              || r == Eldest(a.listing, MinReadyDuration(svc), a.now)
              || (LeaderKey(svc) in d.store.slices && r == StickyLeader(d.store.slices[LeaderKey(svc)].body.endpoints, a.listing))
  {
    hide LeaderServiceName, Eligible, StickyLeader, CurrentLeader, MinReadyDuration;
  }

  lemma ChoiceHasHistory(w: World, moments: seq<Moment>, acts: seq<Action>, i: nat, k: NamespacedName, d: Time)
    requires Timed(w, moments, acts) && LeaderNamesDistinct(w) && i < |acts| && HistoryAt(w, moments, acts, i, k, d)
    requires acts[i].ChooseLeader? && acts[i].request == k
    ensures HistoryAt(w, moments, acts, i + 1, k, d)
  {
    hide LeaderServiceName, Act, Allowed, NamesHeld, PodsOf, AllSourced, MinReadyDuration, Eldest, StickyLeader, IsListing, Runs.Chosen;
    var s, a := moments[i].system, acts[i].answers;
    assert Follows(w, moments[i], acts[i], moments[i + 1]);
    OwnPhase(s, acts[i], k);
    var p, j := s.workers[k], ListStep(acts, i, k);
    ChosenIsStickyOrEligible(DirectorOf(s), p.svc, a.(listing := p.pods));
    TimesAreMonotone(w, moments, acts, j, i);
    var leader := ChosenFrom(s, p, a).0;
    if leader.Some? && leader != Eldest(p.pods, d, a.now) {
      RunKeepsNames(w, moments, acts, i);
      ListedWorkerLeader(w, s, k);
      SliceIsSingle(s, w.leader(k));
      StickyLeaderIsTarget(s.store.slices[w.leader(k)], p.pods);
      assert Leads(w, moments[i], k, leader.value.uid);
    }
  }

  lemma ListedWorkerLeader(w: World, s: System, k: NamespacedName)
    requires NamesHeld(w, s) && k in s.workers && HasListed(s.workers[k])
    ensures LeaderKey(s.workers[k].svc) == w.leader(k) && s.workers[k].svc.key == k
  {
    assert WorkerOf(w, s, k, s.workers[k]);
  }

  lemma SliceIsSingle(s: System, key: NamespacedName)
    requires AllSourced(s) && key in s.store.slices
    ensures |s.store.slices[key].body.endpoints| == 1
  {
  }

  lemma OtherStepHasHistory(w: World, moments: seq<Moment>, acts: seq<Action>, i: nat, k: NamespacedName, d: Time)
    requires Timed(w, moments, acts) && i < |acts| && HistoryAt(w, moments, acts, i, k, d)
    requires !ByWorkerOf(acts[i], k) || acts[i].PublishService? || acts[i].ReadSlice?
    ensures HistoryAt(w, moments, acts, i + 1, k, d)
  {
    hide Act, Allowed, NamesHeld, PodsOf, AllSourced, MinReadyDuration, Eldest, IsListing, Leads;
    assert Follows(w, moments[i], acts[i], moments[i + 1]);
    if ByWorkerOf(acts[i], k) { OwnPhase(moments[i].system, acts[i], k); } else { OthersKeepPhase(moments[i].system, acts[i], k); }
  }

  lemma EarlyStepHasHistory(w: World, moments: seq<Moment>, acts: seq<Action>, i: nat, k: NamespacedName, d: Time)
    requires Timed(w, moments, acts) && Damped(moments, k, d) && i < |acts| && HistoryAt(w, moments, acts, i, k, d)
    requires ByWorkerOf(acts[i], k) && !acts[i].PublishService? && !acts[i].ReadSlice? && !acts[i].ChooseLeader?
    ensures HistoryAt(w, moments, acts, i + 1, k, d)
  {
    hide Act, NamesHeld, PodsOf, AllSourced, MinReadyDuration, Eldest, IsListing, Leads;
    assert Follows(w, moments[i], acts[i], moments[i + 1]);
    OwnPhase(moments[i].system, acts[i], k);
  }

  lemma {:induction false} EveryWorkerHasHistory(w: World, moments: seq<Moment>, acts: seq<Action>, i: nat, k: NamespacedName, d: Time)
    requires Timed(w, moments, acts) && LeaderNamesDistinct(w) && Damped(moments, k, d) && i < |moments|
    ensures HistoryAt(w, moments, acts, i, k, d)
  {
    hide Follows, HistoryAt, NamesHeld, PodsOf, AllSourced, MinReadyDuration;
    if i == 0 {
      NoWorkerNoHistory(w, moments, acts, k, d);
    } else {
      EveryWorkerHasHistory(w, moments, acts, i - 1, k, d);
      var act := acts[i - 1];
      if !ByWorkerOf(act, k) || act.PublishService? || act.ReadSlice? {
        OtherStepHasHistory(w, moments, acts, i - 1, k, d);
      } else if act.ChooseLeader? {
        ChoiceHasHistory(w, moments, acts, i - 1, k, d);
      } else {
        EarlyStepHasHistory(w, moments, acts, i - 1, k, d);
      }
    }
  }

  lemma NoWorkerNoHistory(w: World, moments: seq<Moment>, acts: seq<Action>, k: NamespacedName, d: Time)
    requires Timed(w, moments, acts)
    ensures HistoryAt(w, moments, acts, 0, k, d)
  {
    hide Follows, NamesHeld, PodsOf, AllSourced;
  }

  // ---------- Gains ----------

  lemma {:induction false} RunKeepsPods(w: World, moments: seq<Moment>, acts: seq<Action>, i: nat)
    requires Timed(w, moments, acts) && LeaderNamesDistinct(w) && i < |moments|
    ensures PodsOf(w, moments[i].system.store.pods)
  {
    hide Act, Possible, NamesHeld, PodsOf, AllSourced;
    if i > 0 {
      RunKeepsPods(w, moments, acts, i - 1);
      RunKeepsNames(w, moments, acts, i - 1);
      assert Follows(w, moments[i - 1], acts[i - 1], moments[i]);
      StepKeepsPods(w, moments[i - 1].system, acts[i - 1]);
    }
  }

  lemma StepKeepsPods(w: World, s: System, act: Action)
    requires Possible(s, act) && Allowed(w, s, act) && NamesHeld(w, s) && PodsOf(w, s.store.pods)
    ensures PodsOf(w, Act(s, act).store.pods)
  {
    if MayWrite(act) {
      hide Act, NamesHeld;
      WritersKeepPods(w, s, act);
    } else {
      hide LeaderServiceName, ChosenFrom, UpdateFor, PodEvents, Mapped, Enabled, RoutedPorts, Routed, NamesHeld;
    }
  }

  lemma WritersKeepPods(w: World, s: System, act: Action)
    requires Possible(s, act) && NamesHeld(w, s) && MayWrite(act)
    ensures Act(s, act).store.pods == s.store.pods
  {
    if act.CleanUp? {
      hide Cleanup, EventsOf;
      CleanupWrites(s.store, act.request, act.answers);
    } else {
      hide Act, NamesHeld;
      WorkerWrites(w, s, act);
    }
  }

  /** A pod gains the lead by a patch of the source's own worker, which had chosen it. */
  lemma GainIsOwnPatch(w: World, before: Moment, act: Action, after: Moment, k: NamespacedName, uid: UID)
    requires LeaderNamesDistinct(w) && NamesHeld(w, before.system) && Follows(w, before, act, after)
    requires !Leads(w, before, k, uid) && Leads(w, after, k, uid)
    ensures act.PatchSlice? && act.request == k && k !in after.system.workers
    ensures var p := before.system.workers[k]; p.leader.Some? && p.leader.value.uid == uid
  {
    hide LeaderServiceName, Act, Allowed, BodyFor, SendSlice, ServicesOf, Source;
    var s := before.system;
    if !act.PatchSlice? {
      OnlyPatchesPutSlices(w, s, act);
      assert false;
    } else if act.request != k {
      assert w.leader(k) != w.leader(act.request);
      WorkerWrites(w, s, act);
      assert false;
    } else {
      var p := s.workers[k];
      assert WorkerOf(w, s, k, p);
      PatchSteps(s, k, act.answers);
      PatchIsWanted(s.store, p.svc, p.original, BodyFor(p.svc, p.leader), act.answers);
      BodyForTargets(p.svc, p.leader);
    }
  }

  /** The attempt behind an acquisition: it listed the pod, and chose it later as the eldest eligible pod of that listing. */
  lemma GainIsEligible(w: World, moments: seq<Moment>, acts: seq<Action>, k: NamespacedName, uid: UID, d: Time, gained: nat)
    returns (pods: seq<Pod>, pod: Pod, now: Time)
    requires Timed(w, moments, acts) && LeaderNamesDistinct(w) && Damped(moments, k, d) && Acquires(w, moments, acts, gained, k, uid)
    ensures var j := ListStep(acts, gained, k);
            && 0 <= j < gained && acts[j] == ListPodsOf(k, pods) && acts[gained - 1].PatchSlice? && acts[gained - 1].request == k
            && pod in pods && pod.uid == uid && pod.key in moments[j].system.store.pods && moments[j].system.store.pods[pod.key] == pod
            && moments[j].time <= now <= moments[gained].time && Eldest(pods, d, now) == Some(pod)
            && (forall m :: j < m < gained ==> k in moments[m].system.workers) && k !in moments[gained].system.workers
  {
    hide LeaderServiceName, Act, Possible, Allowed, NamesHeld, PodsOf, AllSourced, Leads, MinReadyDuration, Eldest, Matches;
    var before := moments[gained - 1];
    assert Follows(w, before, acts[gained - 1], moments[gained]);
    RunKeepsNames(w, moments, acts, gained - 1);
    GainIsOwnPatch(w, before, acts[gained - 1], moments[gained], k, uid);
    PatchIsPossible(before.system, acts[gained - 1]);
    EveryWorkerHasHistory(w, moments, acts, gained - 1, k, d);
    var phase, j := before.system.workers[k], ListStep(acts, gained - 1, k);
    assert ListStep(acts, gained, k) == j;
    pods, pod := phase.pods, phase.leader.value;
    now :| moments[j].time <= now <= before.time && Eldest(pods, d, now) == Some(pod);
  }

  lemma PatchIsPossible(s: System, act: Action)
    requires Possible(s, act) && act.PatchSlice?
    ensures act.request in s.workers && s.workers[act.request].SliceRead?
  {
  }

  // ---------- Spacing ----------

  /** From List to write an attempt takes at most `delay`. */
  ghost predicate Prompt(moments: seq<Moment>, acts: seq<Action>, k: NamespacedName, delay: Time)
    requires |moments| == |acts| + 1
  {
    forall i :: 0 <= i < |acts| && acts[i].PatchSlice? && acts[i].request == k && 0 <= ListStep(acts, i + 1, k) ==>
      moments[i + 1].time - moments[ListStep(acts, i + 1, k)].time <= delay
  }

  /** Spacing: if a pod was not Ready at a moment up to the List of the attempt by which it gains the lead, at least d has passed since. */
  lemma AcquisitionWaits(w: World, moments: seq<Moment>, acts: seq<Action>, k: NamespacedName, uid: UID, d: Time, lost: nat, gained: nat)
    requires Timed(w, moments, acts) && LeaderNamesDistinct(w) && TrueTransitions(w, moments) && Damped(moments, k, d) && d > 0
    requires lost < gained && Acquires(w, moments, acts, gained, k, uid) && NotReady(w, moments[lost], uid)
    requires lost <= ListStep(acts, gained, k)
    ensures moments[gained].time - moments[lost].time >= d
  {
    hide Follows, NamesHeld, PodsOf, AllSourced, Damped, NotReady, Leads, IsPodReady, Eldest;
    var pods, pod, now := GainIsEligible(w, moments, acts, k, uid, d, gained);
    var j := ListStep(acts, gained, k);
    assert Eligible(pod, d, now);
    assert pod.key in moments[j].system.store.pods && NotReady(w, moments[lost], moments[j].system.store.pods[pod.key].uid);
    assert ReadySince(pod.conditions).value >= moments[lost].time;
  }

  /**
   With attempts shorter than d from List to write, at least d lies between a moment without
   readiness and a later acquisition exactly if that moment is not later than the List of the
   attempt; a loss during the attempt is overlooked, and then at most the attempt's delay lies between.
   */
  lemma AcquisitionWaitsIffLostBeforeTheList(w: World, moments: seq<Moment>, acts: seq<Action>, k: NamespacedName, uid: UID, d: Time, delay: Time,
                                             lost: nat, gained: nat)
    requires Timed(w, moments, acts) && LeaderNamesDistinct(w) && TrueTransitions(w, moments) && Damped(moments, k, d)
    requires Prompt(moments, acts, k, delay) && 0 <= delay < d
    requires lost < gained && Acquires(w, moments, acts, gained, k, uid) && NotReady(w, moments[lost], uid)
    ensures moments[gained].time - moments[lost].time >= d <==> lost <= ListStep(acts, gained, k)
    ensures lost > ListStep(acts, gained, k) ==> moments[gained].time - moments[lost].time <= delay
  {
    hide Follows, TrueTransitions, Damped, NotReady, NamesHeld, PodsOf, AllSourced, Leads;
    var pods, pod, now := GainIsEligible(w, moments, acts, k, uid, d, gained);
    if lost <= ListStep(acts, gained, k) {
      AcquisitionWaits(w, moments, acts, k, uid, d, lost, gained);
    } else {
      TimesAreMonotone(w, moments, acts, ListStep(acts, gained, k), lost);
    }
  }

  /** A loss overlooked by one acquisition is not overlooked by the next: its attempt lists after the first has ended. */
  lemma NextAcquisitionWaits(w: World, moments: seq<Moment>, acts: seq<Action>, k: NamespacedName, uid: UID, d: Time, lost: nat, first: nat, second: nat)
    requires Timed(w, moments, acts) && LeaderNamesDistinct(w) && TrueTransitions(w, moments) && Damped(moments, k, d) && d > 0
    requires lost <= first < second && Acquires(w, moments, acts, first, k, uid) && Acquires(w, moments, acts, second, k, uid)
    requires NotReady(w, moments[lost], uid)
    ensures first <= ListStep(acts, second, k)
    ensures moments[second].time - moments[lost].time >= d
  {
    hide Follows, NamesHeld, PodsOf, AllSourced, TrueTransitions, Damped, NotReady, Leads;
    var pods, pod, now := GainIsEligible(w, moments, acts, k, uid, d, first);
    var morePods, again, later := GainIsEligible(w, moments, acts, k, uid, d, second);
    AcquisitionWaits(w, moments, acts, k, uid, d, lost, second);
  }

  // ---------- Flaps ----------

  /** Acquisitions of one pod, each followed by a loss of readiness before the next. */
  ghost predicate Flaps(w: World, moments: seq<Moment>, acts: seq<Action>, k: NamespacedName, uid: UID, gains: seq<nat>, losses: seq<nat>) {
    && Ordered(|acts|, gains, losses) && |moments| == |acts| + 1
    && (forall i :: 0 <= i < |gains| ==> Acquires(w, moments, acts, gains[i], k, uid))
    && (forall i :: 0 <= i < |losses| ==> NotReady(w, moments[losses[i]], uid))
  }

  predicate Ordered(last: nat, gains: seq<nat>, losses: seq<nat>) {
    && |gains| == |losses| + 1
    && (forall i :: 0 <= i < |gains| ==> gains[i] <= last)
    && (forall i :: 0 <= i < |losses| ==> gains[i] <= losses[i] < gains[i + 1] && losses[i] <= last)
  }

  /** The run is timed, transition times are true, and the source is damped by d throughout. */
  ghost predicate DampedRun(w: World, moments: seq<Moment>, acts: seq<Action>, k: NamespacedName, d: Time) {
    Timed(w, moments, acts) && LeaderNamesDistinct(w) && TrueTransitions(w, moments) && Damped(moments, k, d) && d > 0
  }

  /** How many of the losses fall between the List and the write of the next acquisition. */
  ghost function Overlooked(acts: seq<Action>, k: NamespacedName, gains: seq<nat>, losses: seq<nat>): (r: nat)
    requires Ordered(|acts|, gains, losses)
    ensures r <= |losses|
  {
    if losses == [] then 0
    else
      var n := |losses| - 1;
      Overlooked(acts, k, gains[..n + 1], losses[..n]) + (if losses[n] > ListStep(acts, gains[n + 1], k) then 1 else 0)
  }

  lemma FlapsPrefix(w: World, moments: seq<Moment>, acts: seq<Action>, k: NamespacedName, uid: UID, gains: seq<nat>, losses: seq<nat>, m: nat)
    requires Flaps(w, moments, acts, k, uid, gains, losses) && m <= |losses|
    ensures Flaps(w, moments, acts, k, uid, gains[..m + 1], losses[..m])
  {
    hide Acquires, NotReady;
  }

  /** One flap: the loss lies between the two gains, and unless it is overlooked the second gain waits. */
  lemma OneFlap(w: World, moments: seq<Moment>, acts: seq<Action>, k: NamespacedName, uid: UID, d: Time, gains: seq<nat>, losses: seq<nat>, i: nat)
    requires DampedRun(w, moments, acts, k, d) && Flaps(w, moments, acts, k, uid, gains, losses) && i < |losses|
    ensures moments[gains[i]].time <= moments[losses[i]].time <= moments[gains[i + 1]].time
    ensures losses[i] <= ListStep(acts, gains[i + 1], k) ==> moments[gains[i + 1]].time - moments[gains[i]].time >= d
  {
    hide Timed, TrueTransitions, Damped, NotReady, Acquires;
    TimesAreMonotone(w, moments, acts, gains[i], losses[i]);
    TimesAreMonotone(w, moments, acts, losses[i], gains[i + 1]);
    if losses[i] <= ListStep(acts, gains[i + 1], k) { AcquisitionWaits(w, moments, acts, k, uid, d, losses[i], gains[i + 1]); }
  }

  /** Two flaps in a row take at least d. */
  lemma TwoFlaps(w: World, moments: seq<Moment>, acts: seq<Action>, k: NamespacedName, uid: UID, d: Time, gains: seq<nat>, losses: seq<nat>, i: nat)
    requires DampedRun(w, moments, acts, k, d) && Flaps(w, moments, acts, k, uid, gains, losses) && i + 1 < |losses|
    ensures moments[gains[i + 2]].time - moments[gains[i]].time >= d
  {
    hide Timed, TrueTransitions, Damped, NotReady, Acquires;
    OneFlap(w, moments, acts, k, uid, d, gains, losses, i);
    NextAcquisitionWaits(w, moments, acts, k, uid, d, losses[i], gains[i + 1], gains[i + 2]);
  }

  lemma {:induction false} WaitsAddUp(w: World, moments: seq<Moment>, acts: seq<Action>, k: NamespacedName, uid: UID, d: Time,
                                      gains: seq<nat>, losses: seq<nat>)
    requires DampedRun(w, moments, acts, k, d) && Flaps(w, moments, acts, k, uid, gains, losses)
    ensures (|losses| - Overlooked(acts, k, gains, losses)) * d <= moments[gains[|losses|]].time - moments[gains[0]].time
    decreases |losses|
  {
    hide DampedRun, ListStep, Acquires, NotReady;
    var n := |losses|;
    if n > 0 {
      FlapsPrefix(w, moments, acts, k, uid, gains, losses, n - 1);
      WaitsAddUp(w, moments, acts, k, uid, d, gains[..n], losses[..n - 1]);
      OneFlap(w, moments, acts, k, uid, d, gains, losses, n - 1);
      OneMore(n - 1 - Overlooked(acts, k, gains[..n], losses[..n - 1]), d);
    }
  }

  lemma OneMore(waits: int, d: Time)
    ensures (waits + 1) * d == waits * d + d
  {
  }

  /** In a window of length T the acquisitions number at most 1 + T/d and the losses overlooked. */
  lemma FlapsAreBounded(w: World, moments: seq<Moment>, acts: seq<Action>, k: NamespacedName, uid: UID, d: Time, gains: seq<nat>, losses: seq<nat>)
    requires DampedRun(w, moments, acts, k, d) && Flaps(w, moments, acts, k, uid, gains, losses)
    ensures |gains| <= 1 + Overlooked(acts, k, gains, losses) + (moments[gains[|losses|]].time - moments[gains[0]].time) / d
  {
    hide Timed, TrueTransitions, Damped, ListStep, Overlooked, Acquires, NotReady;
    WaitsAddUp(w, moments, acts, k, uid, d, gains, losses);
    DivideBound(|losses| - Overlooked(acts, k, gains, losses), d, moments[gains[|losses|]].time - moments[gains[0]].time);
  }

  lemma {:induction false} PairsAddUp(w: World, moments: seq<Moment>, acts: seq<Action>, k: NamespacedName, uid: UID, d: Time,
                                      gains: seq<nat>, losses: seq<nat>)
    requires DampedRun(w, moments, acts, k, d) && Flaps(w, moments, acts, k, uid, gains, losses)
    ensures (|losses| / 2) * d <= moments[gains[|losses|]].time - moments[gains[0]].time
    decreases |losses|
  {
    hide DampedRun, Acquires, NotReady;
    var n := |losses|;
    if n >= 2 {
      FlapsPrefix(w, moments, acts, k, uid, gains, losses, n - 2);
      PairsAddUp(w, moments, acts, k, uid, d, gains[..n - 1], losses[..n - 2]);
      TwoFlaps(w, moments, acts, k, uid, d, gains, losses, n - 2);
      OneMore((n - 2) / 2, d);
      assert n / 2 == (n - 2) / 2 + 1;
    } else if n == 1 {
      OneFlap(w, moments, acts, k, uid, d, gains, losses, 0);
    }
  }

  /** Without counting what is overlooked: at most 2 + 2 T/d, since of two acquisitions in a row one waits. */
  lemma FlapsComeInPairs(w: World, moments: seq<Moment>, acts: seq<Action>, k: NamespacedName, uid: UID, d: Time, gains: seq<nat>, losses: seq<nat>)
    requires DampedRun(w, moments, acts, k, d) && Flaps(w, moments, acts, k, uid, gains, losses)
    ensures |gains| <= 2 + 2 * ((moments[gains[|losses|]].time - moments[gains[0]].time) / d)
  {
    hide Timed, TrueTransitions, Damped, Acquires, NotReady;
    PairsAddUp(w, moments, acts, k, uid, d, gains, losses);
    DivideBound(|losses| / 2, d, moments[gains[|losses|]].time - moments[gains[0]].time);
  }

  lemma MulIsMonotone(a: int, b: int, d: int)
    requires d > 0
    ensures a <= b ==> a * d <= b * d
  {
  }

  lemma DivideBound(n: nat, d: Time, span: Time)
    requires d > 0 && n * d <= span
    ensures n <= span / d
  {
    MulIsMonotone(span / d + 1, n, d);
  }

  // ---------- The clock alone ----------

  /** The pod becomes eligible between two instants at which nothing about it differs. */
  predicate Matures(pod: Pod, d: Time, now: Time, later: Time) {
    && d > 0 && IsPodReady(pod) && ReadySince(pod.conditions).Some?
    && now - ReadySince(pod.conditions).value < d <= later - ReadySince(pod.conditions).value
  }

  /** A pod matures that is senior to the pod chosen before, if there was one. */
  ghost predicate Overtaken(pods: seq<Pod>, d: Time, now: Time, later: Time) {
    exists p :: p in pods && Matures(p, d, now, later) && (Eldest(pods, d, now).Some? ==> Older(p, Eldest(pods, d, now).value))
  }

  lemma EligibilityLasts(pod: Pod, d: Time, now: Time, later: Time)
    requires now <= later
    ensures Eligible(pod, d, later) <==> Eligible(pod, d, now) || Matures(pod, d, now, later)
    ensures !(Eligible(pod, d, now) && Matures(pod, d, now, later))
  {
    hide IsPodReady;
  }

  /** The eldest eligible pod is another one later exactly if a senior pod matures in between. */
  lemma EldestChangesIffOvertaken(pods: seq<Pod>, d: Time, now: Time, later: Time)
    requires Distinct(pods) && now <= later
    ensures Eldest(pods, d, later) != Eldest(pods, d, now) <==> Overtaken(pods, d, now, later)
  {
    hide IsPodReady, Eligible, Matures, Older;
    forall p ensures (Eligible(p, d, later) <==> Eligible(p, d, now) || Matures(p, d, now, later))
                     && !(Eligible(p, d, now) && Matures(p, d, now, later)) {
      EligibilityLasts(p, d, now, later);
    }
    EldestIsEldest(pods, d, now);
    EldestIsEldest(pods, d, later);
    var before, after := Eldest(pods, d, now), Eldest(pods, d, later);
    if before.Some? && after.Some? && before != after {
      KeysOfDistinct(pods, before.value, after.value);
      OlderIsStrictTotalOrder(before.value, after.value, before.value);
    }
    if Overtaken(pods, d, now, later) && before.Some? {
      var p :| p in pods && Matures(p, d, now, later) && Older(p, before.value);
      KeysOfDistinct(pods, p, before.value);
      OlderIsStrictTotalOrder(p, before.value, p);
    }
  }

  lemma KeysOfDistinct(pods: seq<Pod>, p: Pod, q: Pod)
    requires Distinct(pods) && p in pods && q in pods && p != q
    ensures p.key != q.key && p.key.namespace == q.key.namespace
  {
    if p.key == q.key { DistinctKeysOf(pods, p, q); }
  }

  /** The target keeps its place as it is, whatever the clock shows. */
  ghost predicate Held(store: Store, svc: Service, listing: seq<Pod>) {
    var target := TargetPod(store, LeaderKey(svc));
    Sticky(svc) && target.Some? && Healthy(target.value) && target.value in listing
  }

  /**
   Damping makes the choice depend on the clock alone: with pods and slice as they are, another pod
   is chosen later exactly if no target is held and a senior pod matures in between.
   */
  lemma ClockAloneChangesTheChoice(w: World, store: Store, svc: Service, listing: seq<Pod>, now: Time, later: Time)
    requires StoreOf(w, store) && IsListing(listing, store, svc) && now <= later
    ensures Choice(store, svc, listing, later) != Choice(store, svc, listing, now) <==>
            !Held(store, svc, listing) && Overtaken(listing, MinReadyDuration(svc), now, later)
  {
    hide LeaderServiceName, MinReadyDuration, IsPodReady, StickyLeader, Eldest, Overtaken;
    ListingIsDistinct(w, listing, store, svc);
    EldestChangesIffOvertaken(listing, MinReadyDuration(svc), now, later);
    if LeaderKey(svc) in store.slices { StickyHitIsTarget(w, store, svc, listing); }
  }
}
