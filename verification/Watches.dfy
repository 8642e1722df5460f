/**
 The watches that put requests on the work queue: the pod predicate and the mappings of
 pkg/director/service_director.go, lines 1418-1472 and 1581-1606.
 */
module Watches {
  import opened Wrappers
  import opened Kube
  import opened Selection
  import opened Routing
  import opened Reconciling
  import opened Runs
  import opened SteadyState

  // ---------- Services and slices ----------

  /** mapEndpointSliceToService. */
  function SliceRequests(slice: EndpointSlice): set<NamespacedName> {
    if Value(slice.labels, LABEL_SLICE_MANAGED_BY) != ZEN_LEAD || LABEL_SOURCE_SERVICE !in slice.labels then {}
    else {NamespacedName(slice.key.namespace, slice.labels[LABEL_SOURCE_SERVICE])}
  }

  /** Whom the announcement of a write wakes: a Service itself, a slice its source. */
  function Wakes(w: Write): set<NamespacedName> {
    if w.PutService? || w.DeleteService? then {w.service.key} else SliceRequests(w.slice)
  }

  lemma NewSliceNamesItsSource(svc: Service, ownerUid: UID, body: SliceBody)
    ensures svc.key in SliceRequests(EndpointSlice(LeaderKey(svc), SliceLabels(svc), LeaderKey(svc).name, ownerUid, body))
  {
    assert LABEL_SLICE_MANAGED_BY != LABEL_SOURCE_SERVICE;
    assert svc.key == NamespacedName(svc.key.namespace, svc.key.name);
  }

  // ---------- Pods ----------

  predicate Finished(pod: Pod) {
    pod.phase.Failed? || pod.phase.Succeeded?
  }

  /** The predicate's UpdateFunc. */
  predicate UpdatePasses(before: Pod, after: Pod) {
    || IsPodReady(before) != IsPodReady(after)
    || before.deletion.Some? != after.deletion.Some?
    || before.podIP != after.podIP
    || (Finished(before) && before.phase != after.phase)
    || (Finished(after) && before.phase != after.phase)
  }

  /** What the director reads of a pod and does not expect to change: a pod has its node for good before it is Ready. */
  predicate SamePod(before: Pod, after: Pod) {
    && after.key == before.key && after.uid == before.uid && after.labels == before.labels
    && after.creation == before.creation && after.containers == before.containers
    && (IsPodReady(before) && IsPodReady(after) ==> after.nodeName == before.nodeName)
  }

  /** Nothing the director looks at differs. */
  predicate Alike(before: Pod, after: Pod) {
    && SamePod(before, after)
    && IsPodReady(before) == IsPodReady(after)
    && before.deletion.Some? == after.deletion.Some?
    && before.podIP == after.podIP
  }

  /** Any number of updates that the predicate rejects leave a pod alike. */
  lemma {:induction false} RejectedUpdatesLeaveAlike(history: seq<Pod>)
    requires history != []
    requires forall i :: 0 <= i < |history| - 1 ==> SamePod(history[i], history[i + 1]) && !UpdatePasses(history[i], history[i + 1])
    ensures Alike(history[0], history[|history| - 1])
  {
    if |history| > 1 {
      RejectedUpdatesLeaveAlike(history[1..]);
      assert SamePod(history[0], history[1]) && !UpdatePasses(history[0], history[1]);
    }
  }

  ghost predicate RejectedHistory(history: seq<Pod>, before: Pod, after: Pod) {
    && history != [] && history[0] == before && history[|history| - 1] == after
    && forall i :: 0 <= i < |history| - 1 ==> SamePod(history[i], history[i + 1]) && !UpdatePasses(history[i], history[i + 1])
  }

  /** Any number of updates, each of which the predicate rejects. */
  ghost predicate OnlyRejectedUpdates(before: map<NamespacedName, Pod>, after: map<NamespacedName, Pod>) {
    before.Keys == after.Keys && forall k :: k in before ==> exists h :: RejectedHistory(h, before[k], after[k])
  }

  // ---------- The filter is sound ----------

  ghost predicate AllAlike(before: seq<Pod>, after: seq<Pod>) {
    |before| == |after| && forall i :: 0 <= i < |before| ==> Alike(before[i], after[i])
  }

  ghost predicate AlikeOptions(before: Option<Pod>, after: Option<Pod>) {
    before.Some? == after.Some? && (before.Some? ==> Alike(before.value, after.value))
  }

  lemma {:induction false} EldestOfAlike(before: seq<Pod>, after: seq<Pod>, minReady: Time, now: Time, later: Time)
    requires AllAlike(before, after) && minReady <= 0
    ensures AlikeOptions(Eldest(before, minReady, now), Eldest(after, minReady, later))
  {
    if before != [] {
      assert Alike(before[0], after[0]);
      EldestOfAlike(before[1..], after[1..], minReady, now, later);
    }
  }

  lemma {:induction false} FirstWithUidOfAlike(before: seq<Pod>, after: seq<Pod>, uid: UID)
    requires AllAlike(before, after)
    ensures AlikeOptions(FirstWithUid(before, uid), FirstWithUid(after, uid))
  {
    if before != [] {
      assert Alike(before[0], after[0]);
      FirstWithUidOfAlike(before[1..], after[1..], uid);
    }
  }

  lemma {:induction false} StickyLeaderOfAlike(endpoints: seq<Endpoint>, before: seq<Pod>, after: seq<Pod>)
    requires AllAlike(before, after)
    ensures AlikeOptions(StickyLeader(endpoints, before), StickyLeader(endpoints, after))
  {
    if endpoints != [] {
      if NamesPod(endpoints[0]) { FirstWithUidOfAlike(before, after, endpoints[0].targetRef.value.uid); }
      StickyLeaderOfAlike(endpoints[1..], before, after);
    }
  }

  /** Alike leaders resolve the same ports and make the same body. */
  lemma {:induction false} PortsOfAlike(ports: seq<ServicePort>, before: Option<Pod>, after: Option<Pod>)
    requires AlikeOptions(before, after)
    ensures ResolvePorts(ports, before) == ResolvePorts(ports, after)
  {
    if ports != [] { PortsOfAlike(ports[1..], before, after); }
  }

  /** The slice body a reconcile now writes for a source whose reads succeed. */
  function WantedBody(store: Store, svc: Service, listing: seq<Pod>, now: Time): SliceBody {
    var choice := Choice(store, svc, listing, now);
    ResolvedPortsOfRouted(svc, choice);
    LeaderBody(Routed(svc, choice), RoutedPorts(svc, choice))
  }

  lemma ResolvedPortsOfRouted(svc: Service, chosen: Option<Pod>)
    ensures AllNumbered(RoutedPorts(svc, chosen))
  {
    ResolutionIsAllOrNothing(svc.ports, chosen);
  }

  lemma BodyOfAlike(svc: Service, before: Option<Pod>, after: Option<Pod>)
    requires AlikeOptions(before, after)
    requires (before.Some? ==> IsPodReady(before.value))
    ensures AllNumbered(RoutedPorts(svc, before)) && AllNumbered(RoutedPorts(svc, after))
    ensures LeaderBody(Routed(svc, before), RoutedPorts(svc, before)) == LeaderBody(Routed(svc, after), RoutedPorts(svc, after))
  {
    PortsOfAlike(svc.ports, before, after);
    ResolvedPortsOfRouted(svc, before);
  }

  /** The pods that match the Service are the same ones before and after, each alike. */
  ghost predicate MatchingAlike(svc: Service, before: map<NamespacedName, Pod>, after: map<NamespacedName, Pod>) {
    forall k ::
      && (k in before && Matches(svc, before[k]) <==> k in after && Matches(svc, after[k]))
      && (k in before && Matches(svc, before[k]) && k in after ==> Alike(before[k], after[k]))
  }

  /** A listing after the changes is alike, pod by pod, to some ordering of the one before. */
  lemma Relisted(store: Store, after: Store, svc: Service, one: seq<Pod>) returns (relisted: seq<Pod>)
    requires forall k :: k in store.pods ==> store.pods[k].key == k
    requires forall k :: k in after.pods ==> after.pods[k].key == k
    requires MatchingAlike(svc, store.pods, after.pods) && IsListing(one, store, svc)
    ensures AllAlike(one, relisted) && IsListing(relisted, after, svc)
  {
    relisted := seq(|one|, i requires 0 <= i < |one| => if one[i].key in after.pods then after.pods[one[i].key] else one[i]);
    forall i | 0 <= i < |one|
      ensures Alike(one[i], relisted[i]) && relisted[i].key == one[i].key && Matches(svc, relisted[i])
      ensures relisted[i].key in after.pods && after.pods[relisted[i].key] == relisted[i] {
      assert one[i] in one;
      assert one[i].key in store.pods && Matches(svc, store.pods[one[i].key]);
    }
    forall p ensures p in relisted <==> p.key in after.pods && after.pods[p.key] == p && Matches(svc, p) {
      if p.key in after.pods && after.pods[p.key] == p && Matches(svc, p) {
        var q := store.pods[p.key];
        assert q in one;
        var i :| 0 <= i < |one| && one[i] == q;
        assert relisted[i] == p;
      }
    }
  }

  /** A choice looks at the slice, and of the pods only at the listed ones. */
  lemma ChoiceOfAlike(w: World, store: Store, after: Store, svc: Service, one: seq<Pod>, other: seq<Pod>, now: Time, later: Time)
    requires StoreOf(w, store) && StoreOf(w, after) && MinReadyDuration(svc) <= 0
    requires LeaderKey(svc) in store.slices <==> LeaderKey(svc) in after.slices
    requires LeaderKey(svc) in store.slices ==> after.slices[LeaderKey(svc)] == store.slices[LeaderKey(svc)]
    requires IsListing(one, store, svc) && IsListing(other, after, svc) && AllAlike(one, other)
    ensures AlikeOptions(Choice(store, svc, one, now), Choice(after, svc, other, later))
  {
    hide LeaderServiceName, MinReadyDuration, Eldest, StickyLeader, IsPodReady;
    EldestOfAlike(one, other, MinReadyDuration(svc), now, later);
    if LeaderKey(svc) in store.slices {
      StickyLeaderOfAlike(store.slices[LeaderKey(svc)].body.endpoints, one, other);
      StickyHitIsTarget(w, store, svc, one);
      StickyHitIsTarget(w, after, svc, other);
    }
  }

  /** If the pods of a source are alike, the choice is alike, however List orders its answer, and the body the same. */
  lemma AlikePodsKeepTheBody(w: World, store: Store, after: Store, svc: Service, one: seq<Pod>, other: seq<Pod>, now: Time, later: Time)
    requires StoreOf(w, store) && StoreOf(w, after) && MinReadyDuration(svc) <= 0
    requires LeaderKey(svc) in store.slices <==> LeaderKey(svc) in after.slices
    requires LeaderKey(svc) in store.slices ==> after.slices[LeaderKey(svc)] == store.slices[LeaderKey(svc)]
    requires MatchingAlike(svc, store.pods, after.pods)
    requires IsListing(one, store, svc) && IsListing(other, after, svc)
    ensures AlikeOptions(Choice(store, svc, one, now), Choice(after, svc, other, later))
    ensures WantedBody(after, svc, other, later) == WantedBody(store, svc, one, now)
  {
    hide LeaderServiceName, MinReadyDuration, LeaderBody, RoutedPorts, Routed, Choice, MatchingAlike, IsPodReady;
    var relisted := Relisted(store, after, svc, one);
    ChoiceOfAlike(w, store, after, svc, one, relisted, now, later);
    ChoiceIgnoresOrderAndClock(w, after, after, svc, relisted, other, later, later);
    BodyOfAlike(svc, Choice(store, svc, one, now), Choice(after, svc, other, later));
  }

  /**
   Event-filter soundness. If pods changed only by updates that the predicate rejects, a
   reconcile selects the same pod and writes the same slice body as before them.
   */
  lemma RejectedUpdatesKeepTheSlice(w: World, store: Store, after: Store, svc: Service, one: seq<Pod>, other: seq<Pod>, now: Time, later: Time)
    requires StoreOf(w, store) && StoreOf(w, after) && MinReadyDuration(svc) <= 0
    requires OnlyRejectedUpdates(store.pods, after.pods) && after.slices == store.slices
    requires IsListing(one, store, svc) && IsListing(other, after, svc)
    ensures UidOf(Choice(store, svc, one, now)) == UidOf(Choice(after, svc, other, later))
    ensures WantedBody(after, svc, other, later) == WantedBody(store, svc, one, now)
  {
    hide LeaderServiceName, MinReadyDuration, WantedBody, Choice, IsPodReady, StoreOf;
    forall k | k in store.pods ensures Alike(store.pods[k], after.pods[k]) {
      var h :| RejectedHistory(h, store.pods[k], after.pods[k]);
      RejectedUpdatesLeaveAlike(h);
    }
    AlikePodsKeepTheBody(w, store, after, svc, one, other, now, later);
  }
}
